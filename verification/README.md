# twitch-chat overlay core, modelled in Dafny

This project models the logic core of a browser overlay that shows a Twitch channel's chat. The overlay keeps an EventSub WebSocket session alive. It subscribes to chat messages and deletions and stores them, and it keeps a table of third-party emotes (7TV, BetterTTV, FrankerFaceZ) current. When it renders a message it turns the text into emotes, cheermotes and words, and it hides names that match the user's exclude filters. The model also covers the settings editors for text shadow, text stroke and filters, and the decoding of the overlay URL's search parameters.

Each source file of the core becomes one Dafny module, in its own file:

- `TwitchWebSocketClient` (`twitch_websocket_client.dfy`) is the EventSub session client. It is a class whose fields are the hook's refs: the 50-entry deduplication ledger, the keepalive seconds, the watchdog timer, the two handover flags, the socket URL, the pending reconnect URL and the temporary socket. Each event handler is a method proved equal to a step function on a `Session` value. A `Valid` invariant is proved for every step.
- `EventSubSchemas`, `EventSubscribe`, `SubscribeToChat` and `EventSubHandler` are the frame validators, the subscription request body, the ordered pair of chat subscriptions, and the event dispatcher that updates the store.
- `Store` holds the shared Zustand store: ordered emote, badge, cheer and user tables and the message log. It is a class whose setters assign the pure results defined beside them. `OrderedRecord` models a JavaScript object with insertion order: merge, put, remove by value, and the order in which `Object.values` lists entries.
- `SevenTVWebsocket` and `BetterTTVWebsocket` are the two emote push clients. They cover the retry guard and counter, the backoff, close-code classification, the heartbeat-miss counter, the Dispatch change lists, the BetterTTV channel join and emote messages.
- `LoadEmotes`, `FetchCheers` and `FetchBadges` build the emote, cheer and badge records and the loaders that fill the tables.
- `ChatImageRenderer` covers message tokenisation: splitting fragments into parts, pending BetterTTV modifier flags, the cheer lookup, the in-place lookahead that absorbs modifier and zero-width emotes, the `growx` width clamp and cheer amounts.
- `Filters` (with `FilterUrl` for the base64url layer) is the exclude-filter compiler. It also holds a small regular-expression matcher, which gives meaning to the compiled pattern string.
- `ShadowCommon`, `ShadowStacker`, `TextStroke` and `FilterEditor` are the settings editors' string and list operations.
- `ChatSearchParams` is the search-parameter decoding with its defaults.
- `Wrappers`, `Strings`, `Numbers`, `Json`, `Helix`, `ChatTypes` and `Seqs` hold shared datatypes and helpers.

Outside effects are parameters or logged values:

- REST responses, `JSON.parse`, `btoa`/`atob`, the canvas colour normaliser, twemoji and the modifier-flag decoders are parameters.
- Subscriptions, dispatched events, socket closes and sends are appended to effect logs.
- Timers and sockets are abstract events.


## Model

| member | source | states |
|---|---|---|
| Store.ChatStore.constructor | src/store/store.ts:38-47 | a new store holds no ids, empty badge, cheer, emote and user tables, an empty message log and the application's client id |
| Store.ChatStore.SetBroadcasterId | src/store/store.ts:40 | the broadcaster id becomes the argument, nothing else changes |
| Store.ChatStore.SetChatBadges | src/store/store.ts:43 | the badge table becomes the spread merge of the old table and the argument: the argument's keys win, other badges stay, old keys keep their order |
| Store.ChatStore.SetChatCheers | src/store/store.ts:45 | the cheer table becomes the spread merge of the old table and the argument |
| Store.ChatStore.SetChatEmotes | src/store/store.ts:47 | the emote table becomes the spread merge of the old table and the argument |
| Store.ChatStore.RemoveChatEmote | src/store/store.ts:48-52 | every emote whose id is the argument is dropped, under whatever name it is stored; the rest keep their order |
| Store.WithoutEmote | src/store/store.ts:50 | the kept entries are exactly those whose id differs, in their original order |
| Store.WithoutAbsentEmote | src/store/store.ts:50 | removing an id no emote has leaves the table as it was, order included |
| Store.ChatStore.AddChatMessage | src/store/store.ts:54-59 | the message is appended to the log, with no deduplication |
| Store.ChatStore.DeleteChatMessage | src/store/store.ts:60-65 | every message whose message_id equals the deletion event's is dropped |
| Store.ChatStore.RemoveChatMessage | src/store/store.ts:66-71 | every message whose message_id equals the given message's is dropped |
| Store.WithoutMessage | src/store/store.ts:63 | the survivors are exactly the messages with another id, in their original order |
| Store.WithoutMessageAppend | src/store/store.ts:63 | removing by id distributes over concatenation of logs |
| Store.WithoutAbsentMessage | src/store/store.ts:63 | removing an id no message carries changes nothing |
| Store.RemoveAfterAdd | src/store/store.ts:54-71 | a message added and then removed by its own id leaves no message with that id |
| Store.ChatStore.SetUserId | src/store/store.ts:74 | the user id becomes the argument, nothing else changes |
| Store.ChatStore.SetUserLogin | src/store/store.ts:75 | the user login becomes the argument, nothing else changes |
| Store.ChatStore.AddUserInformation | src/store/store.ts:77-84 | the user is stored under its id, replacing an older entry in place; other users are unchanged |
| Store.ChatStore.Reset | src/store/store.ts:85-96 | the store is back in its initial state |
| Store.PersistedStore.constructor | src/store/store.ts:118-137 | an empty token, auth state and channel, and the three emote providers enabled |
| Store.PersistedStore.GetAccessToken | src/store/store.ts:120-126 | succeeds exactly when the stored token is non-empty, with that token; otherwise the error "Access token is not set." |
| Store.PersistedStore.SetAccessToken | src/store/store.ts:127 | the token becomes the argument |
| Store.PersistedStore.SetAuthStateValue | src/store/store.ts:129 | the auth state value becomes the argument |
| Store.PersistedStore.SetBetterTTVEnabled | src/store/store.ts:131 | the BetterTTV switch becomes the argument |
| Store.PersistedStore.SetChannel | src/store/store.ts:133 | the channel becomes the argument |
| Store.PersistedStore.SetFrankerFaceZEnabled | src/store/store.ts:135 | the FrankerFaceZ switch becomes the argument |
| Store.PersistedStore.SetSevenTVEnabled | src/store/store.ts:137 | the 7TV switch becomes the argument |
| OrderedRecord.MergeSemantics | src/store/store.ts:43-47 | spread merge is last-write-wins: keys of the argument take its values, other keys keep theirs, old keys keep their order and new keys follow in order |
| OrderedRecord.Put | src/store/store.ts:79-82 | assigning a key keeps an existing key in its place and appends a new one last, with the new value and the other values unchanged |
| OrderedRecord.MergeSingle | src/store/store.ts:79-82 | spreading a one-entry object into a table is the assignment of that key |
| OrderedRecord.FilterKeepAll | src/store/store.ts:50 | filtering with a test every value passes gives the same table back, order included |
| EventSubSchemas.SubscriptionEventReadsListedFields | src/handlers/twitch/event-sub/schemas.ts:3-14 | whether a value is a subscription event depends only on `event` being an object and `subscription.type` a string; other fields may differ or be added |
| EventSubSchemas.ReconnectReadsListedFields | src/handlers/twitch/event-sub/schemas.ts:16-37 | whether a frame is a reconnect message depends only on the listed metadata and session fields |
| EventSubSchemas.WelcomeReadsListedFields | src/handlers/twitch/event-sub/schemas.ts:39-60 | whether a frame is a welcome message depends only on the listed metadata and session fields |
| EventSubSchemas.PathIgnoresOtherField | src/handlers/twitch/event-sub/schemas.ts:16-31 | adding a field leaves what a path through a different first field finds unchanged |
| EventSubSchemas.ExtraTopLevelFieldAccepted | src/handlers/twitch/event-sub/schemas.ts:16-54 | an extra top-level field never turns a welcome or reconnect frame away (object schemas strip unknown keys) |
| EventSubSchemas.WelcomeExcludesReconnect | src/handlers/twitch/event-sub/schemas.ts:19 | no frame is both a welcome and a reconnect message (also line 42) |
| EventSubSchemas.ReconnectHasUrl | src/handlers/twitch/event-sub/schemas.ts:27 | a reconnect frame always carries a string reconnect URL |
| EventSubSchemas.NullUrlOnlyInWelcome | src/handlers/twitch/event-sub/schemas.ts:27 | a null reconnect URL is allowed in a welcome but not in a reconnect frame (also line 51) |
| EventSubscribe.SubscriptionRequest | src/handlers/twitch/event-sub/subscribers/eventSubscribe.ts:9-37 | a POST to the eventsub subscriptions URL with the client id, `Bearer` and the stored token (even an empty one) and a JSON content type |
| EventSubscribe.BodyRoundTrip | src/handlers/twitch/event-sub/subscribers/eventSubscribe.ts:20-28 | the JSON body read back gives exactly the type, version, condition and session id it was built from, over a websocket transport |
| EventSubscribe.DefaultVersionIsOne | src/handlers/twitch/event-sub/subscribers/eventSubscribe.ts:13 | without an explicit version the body asks for version "1" |
| SubscribeToChat.ChatSubscriptionsContent | src/handlers/twitch/event-sub/subscribers/subscribeToChat.ts:4-17 | exactly two requests, chat messages then deletions, version "1", the broadcaster as both broadcaster and user, for the given session |
| SubscribeToChat.RequestLog.EventSubscribe | src/handlers/twitch/event-sub/subscribers/eventSubscribe.ts:9-42 | one request is appended to the log, built from the current client id and stored token |
| SubscribeToChat.RequestLog.SubscribeToChat | src/handlers/twitch/event-sub/subscribers/subscribeToChat.ts:4-20 | the message subscription then the deletion subscription are appended to the log |
| EventSubHandler.TwitchEventSubHandler | src/handlers/twitch/twitchEventSubHandler.ts:6-31 | the part of a call that runs before its first `await`: a chat message from a known sender is appended and the call finishes; from an unknown sender nothing changes yet and the call waits for the lookup; a deletion removes messages by id; any other event changes nothing |
| EventSubHandler.ResumeAfterLookup | src/handlers/twitch/twitchEventSubHandler.ts:12-19 | once the lookup settles, a found user is upserted without checking again, and the message is appended to the log as it is then |
| EventSubHandler.UninterruptedCall | src/handlers/twitch/twitchEventSubHandler.ts:6-31 | a call waits exactly for a chat message from an unknown sender; run without interleaving, it upserts a found user and appends the message, a deletion removes by id, and any other event changes nothing |
| EventSubHandler.InterleavedMessagesReorder | src/handlers/twitch/twitchEventSubHandler.ts:9-19 | a message from an unknown sender, overtaken during its lookup by a message from a known sender, lands after it (also src/TwitchWebSocketClient.tsx:175, 242, where the handler is not awaited) |
| EventSubHandler.DeleteDuringLookupKeepsMessage | src/handlers/twitch/twitchEventSubHandler.ts:9-26 | a deletion handled during the sender lookup misses its message, which is appended afterwards and stays in the log; handled after the call, it removes it |
| EventSubHandler.KnownSenderKeepsUsers | src/handlers/twitch/twitchEventSubHandler.ts:9-11 | a message from a known sender never changes the user table |
| EventSubHandler.UnknownSenderUpserted | src/handlers/twitch/twitchEventSubHandler.ts:11-17 | an unknown sender found by the lookup is stored under its own id and no other user changes |
| TwitchWebSocketClient.ReconnectIntervalSchedule | src/TwitchWebSocketClient.tsx:55-56 | the reconnect backoff is 1 s, 2 s, 4 s, 8 s and then 10 s for every later attempt, always between 1 s and 10 s |
| TwitchWebSocketClient.Remember | src/TwitchWebSocketClient.tsx:97-106 | a known id changes nothing; a new id goes last, the ledger stays duplicate-free and never grows past 50 ids, dropping only the oldest |
| TwitchWebSocketClient.KindOfLabels | src/TwitchWebSocketClient.tsx:212-301 | each `message_type` case label selects its own case |
| TwitchWebSocketClient.DispatchedEvent | src/TwitchWebSocketClient.tsx:235-242 | a subscription event's payload is dispatched as its event fields plus `eventType` set to the subscription type |
| TwitchWebSocketClient.InitialSession | src/TwitchWebSocketClient.tsx:18-31 | on mount the socket is on the base URL, keepalive 10 s, no watchdog, no handover, no temporary socket, an empty ledger |
| TwitchWebSocketClient.PrimaryDispatchFacts | src/TwitchWebSocketClient.tsx:212-302 | the primary switch changes the keepalive, the handover flag and the subscriptions only on a welcome |
| TwitchWebSocketClient.TemporaryDispatchFacts | src/TwitchWebSocketClient.tsx:141-185 | the temporary socket's switch never subscribes |
| TwitchWebSocketClient.StepsPreserveValid | src/TwitchWebSocketClient.tsx:97-106 | every event keeps the keepalive at least 10, the ledger bounded and duplicate-free, and a temporary socket tied to a URL (also lines 145, 217, 258-259) |
| TwitchWebSocketClient.StaleFrameOnlyRearms | src/TwitchWebSocketClient.tsx:202-209 | a frame without a fresh message id only re-arms the watchdog |
| TwitchWebSocketClient.LedgerIsShared | src/TwitchWebSocketClient.tsx:136-139 | both sockets share one ledger: an id handled on either socket is dropped when it comes again on either (also lines 207-210) |
| TwitchWebSocketClient.FrameRearmsWatchdog | src/TwitchWebSocketClient.tsx:73-91 | any frame with data re-arms the watchdog with the keepalive period in force before the frame, before deduplication (also line 202) |
| TwitchWebSocketClient.KeepaliveOnlyFromWelcome | src/TwitchWebSocketClient.tsx:144-147 | the keepalive changes only on a fresh welcome carrying a number of at least 10, and then becomes that number (also lines 216-219) |
| TwitchWebSocketClient.WelcomeAfterHandoverDoesNotSubscribe | src/TwitchWebSocketClient.tsx:225-226 | a fresh primary welcome during a handover clears the handover flag and subscribes to nothing |
| TwitchWebSocketClient.WelcomeSubscribesOnce | src/TwitchWebSocketClient.tsx:213-229 | otherwise a fresh primary welcome closes any temporary socket and subscribes once, only when session, broadcaster and user ids are all truthy |
| TwitchWebSocketClient.TemporaryWelcomeHandsOver | src/TwitchWebSocketClient.tsx:142-166 | a fresh welcome on the temporary socket marks the handover, points the primary at the stored reconnect URL, closes the primary and the temporary socket |
| TwitchWebSocketClient.ReconnectOpensTemporary | src/TwitchWebSocketClient.tsx:246-284 | a reconnect frame with a URL opens a temporary socket to it or, when that fails, closes the primary |
| TwitchWebSocketClient.EmptyReconnectUrlClosesPrimary | src/TwitchWebSocketClient.tsx:285-292 | a reconnect frame with an empty URL passes the schema but only closes the primary |
| TwitchWebSocketClient.OnlyPrimaryWelcomeSubscribes | src/TwitchWebSocketClient.tsx:227-228 | the only step that subscribes is a fresh welcome on the primary socket |
| TwitchWebSocketClient.ShouldReconnectFallsBack | src/TwitchWebSocketClient.tsx:39-52 | after a close the session leaves the reconnect URL and returns to the base URL if it was on a reconnect URL |
| TwitchWebSocketClient.AsWrittenSubscribesWrongSession | src/TwitchWebSocketClient.tsx:228 | as written, the subscriptions name the user id as their session, wrong whenever the two differ |
| TwitchWebSocketClient.AsWrittenWelcomeSendsUserId | src/TwitchWebSocketClient.tsx:227-228 | as written, the requests the source sends for a fresh welcome's `Subscribe` effect name the user id as their session |
| TwitchWebSocketClient.WelcomeSubscribesOwnSession | src/TwitchWebSocketClient.tsx:215 | corrected, every request a welcome triggers names the session that welcome opened (also line 228) |
| TwitchWebSocketClient.SubscribeNamesItsSession | src/handlers/twitch/event-sub/subscribers/subscribeToChat.ts:4-17 | the requests of a subscribe effect carry that effect's session id |
| TwitchWebSocketClient.EventSubClient.constructor | src/TwitchWebSocketClient.tsx:18-31 | the client starts in the initial session state |
| TwitchWebSocketClient.EventSubClient.ResetInactivityWatchdog | src/TwitchWebSocketClient.tsx:73-91 | any running timer is replaced by one with the period `(keepalive or 10) * 1000 + 2000` ms |
| TwitchWebSocketClient.EventSubClient.HasSeenMessageId | src/TwitchWebSocketClient.tsx:93-95 | true exactly when the ledger holds the id |
| TwitchWebSocketClient.EventSubClient.RememberMessageId | src/TwitchWebSocketClient.tsx:97-106 | the ledger becomes `Remember` of the old ledger; nothing else changes |
| TwitchWebSocketClient.EventSubClient.CloseTemporarySocket | src/TwitchWebSocketClient.tsx:109-126 | the temporary socket is closed and forgotten |
| TwitchWebSocketClient.EventSubClient.HandleNotification | src/TwitchWebSocketClient.tsx:234-244 | a subscription event is passed to the event handler; anything else is ignored |
| TwitchWebSocketClient.EventSubClient.Deduplicate | src/TwitchWebSocketClient.tsx:205-210 | reports whether the frame carries a fresh truthy id and, if so, remembers it |
| TwitchWebSocketClient.EventSubClient.OnPrimaryFrame | src/TwitchWebSocketClient.tsx:193-302 | the new state is the primary-socket step of the old state and the frame |
| TwitchWebSocketClient.EventSubClient.HandlePrimaryMessage | src/TwitchWebSocketClient.tsx:212-302 | the new state is the primary dispatch of the message kind |
| TwitchWebSocketClient.EventSubClient.OnTempFrame | src/TwitchWebSocketClient.tsx:129-191 | the new state is the temporary-socket step of the old state and the frame (also lines 264-269) |
| TwitchWebSocketClient.EventSubClient.HandleTemporaryMessage | src/TwitchWebSocketClient.tsx:141-185 | the new state is the temporary dispatch of the message kind |
| TwitchWebSocketClient.EventSubClient.ShouldReconnect | src/TwitchWebSocketClient.tsx:39-52 | always asks for a reconnect, falling back to the base URL from a reconnect URL |
| TwitchWebSocketClient.EventSubClient.OnWatchdogFired | src/TwitchWebSocketClient.tsx:80-90 | the primary socket is closed |
| TwitchWebSocketClient.EventSubClient.Teardown | src/TwitchWebSocketClient.tsx:316-324 | the timer is cleared and the temporary socket closed |
| Helix.HelixGet | src/handlers/twitch/helix/fetchCheers.ts:24-30 | a GET to the URL with the client id and `Bearer` token headers and no body |
| TwitchWebSocketClient.EventSubClient.HandlePrimaryWelcome | src/TwitchWebSocketClient.tsx:213-231 | corrected, a welcome takes a keepalive of at least 10 s, closes any temporary socket, then either ends a handover or subscribes with its own session id when broadcaster and user are known; any other payload changes nothing |
| TwitchWebSocketClient.EventSubClient.HandlePrimaryReconnect | src/TwitchWebSocketClient.tsx:245-295 | a reconnect with a URL closes any old temporary socket, stores the URL and opens a temporary socket to it, or closes the primary when that fails; without a URL it only closes the primary |
| TwitchWebSocketClient.EventSubClient.HandleTemporaryWelcome | src/TwitchWebSocketClient.tsx:142-167 | a welcome on the temporary socket hands the session over and then closes the temporary socket |
| TwitchWebSocketClient.EventSubClient.TakeOver | src/TwitchWebSocketClient.tsx:144-163 | the welcome's keepalive is taken, both handover flags are set, the primary is pointed at the stored reconnect URL when there is one, and the primary is closed |
| TwitchWebSocketClient.PrimaryReconnectFacts | src/TwitchWebSocketClient.tsx:245-295 | a reconnect request keeps the watchdog, the ledger and the keepalive, keeps the session invariant and adds no subscription |
| TwitchWebSocketClient.PrimaryStepValid | src/TwitchWebSocketClient.tsx:193-302 | every frame on the primary socket keeps the session invariant |
| TwitchWebSocketClient.TemporaryStepValid | src/TwitchWebSocketClient.tsx:129-191 | every frame on the temporary socket keeps the session invariant |
| SevenTVWebsocket.BackoffBounds | src/handlers/sevenTV/sevenTVWebsocket.ts:140-145 | the un-jittered delay doubles from the minimum and is capped at 60 s; the jittered delay is never negative and within 20 % of it |
| SevenTVWebsocket.ExpDelaySchedule | src/handlers/sevenTV/sevenTVWebsocket.ts:111-113 | with the 1 s base the delays are 1, 2, 4, 8, 16, 32 s and then 60 s; with the 30 s base, 30 s and then 60 s (also lines 140-141) |
| SevenTVWebsocket.RateLimitMatches | src/handlers/sevenTV/sevenTVWebsocket.ts:197 | the rate-limit pattern accepts `429` and `rate limit` spelled with any one separator or none, in any letter case (also lines 304, 325) |
| SevenTVWebsocket.RateLimitRejects | src/handlers/sevenTV/sevenTVWebsocket.ts:197 | it rejects text with neither spelling, and a line break between the two words (also lines 304, 325) |
| SevenTVWebsocket.AddsOf | src/handlers/sevenTV/sevenTVWebsocket.ts:229-235 | one add per `emotes` entry, carrying the entry's value, in order |
| SevenTVWebsocket.RemovesOf | src/handlers/sevenTV/sevenTVWebsocket.ts:243-249 | one remove per `emotes` entry, carrying the id of the entry's old value, in order |
| SevenTVWebsocket.AddsOfMembers | src/handlers/sevenTV/sevenTVWebsocket.ts:229-235 | an emote is added exactly when an `emotes` entry carries it; entries under other keys add nothing |
| SevenTVWebsocket.RemovesOfMembers | src/handlers/sevenTV/sevenTVWebsocket.ts:243-249 | an id is removed exactly when an `emotes` entry's old value carries it |
| SevenTVWebsocket.DispatchAddsBeforeRemoves | src/handlers/sevenTV/sevenTVWebsocket.ts:225-250 | a dispatch issues all its adds (pushed, added, updated) before any remove (removed, pulled, updated) |
| SevenTVWebsocket.UpdatedEmoteIsReplaced | src/handlers/sevenTV/sevenTVWebsocket.ts:228-229 | every `emotes` entry of `updated` is both added from its value and removed by its old id (also lines 242-243) |
| SevenTVWebsocket.InitialState | src/handlers/sevenTV/sevenTVWebsocket.ts:115-120 | before the first connection there is no heartbeat, no pending timer, no misses and no retries |
| SevenTVWebsocket.StepsPreserveValid | src/handlers/sevenTV/sevenTVWebsocket.ts:148-339 | every event keeps the state valid: at most 8 retries used, a timer pending only while fewer than 8 are used, at most 3 missed heartbeats, and a heartbeat ticking only with its interval handle |
| SevenTVWebsocket.ScheduleIsGuarded | src/handlers/sevenTV/sevenTVWebsocket.ts:148-167 | scheduling does nothing while a reconnect is pending or after 8 retries, and otherwise arms exactly one timer |
| SevenTVWebsocket.ExhaustedScheduleIsNoOp | src/handlers/sevenTV/sevenTVWebsocket.ts:152-157 | a scheduling attempt after the retries are used up changes nothing |
| SevenTVWebsocket.GivingUpIsPermanent | src/handlers/sevenTV/sevenTVWebsocket.ts:152-157 | once the retries are used up and no timer is pending, no event but `open` ever schedules or connects again (also line 181) |
| SevenTVWebsocket.RetryCountChanges | src/handlers/sevenTV/sevenTVWebsocket.ts:164 | the retry counter goes up by one only when a scheduled reconnect fires, and back to 0 only when a socket opens (also line 181) |
| SevenTVWebsocket.RateLimitedCloseWaits | src/handlers/sevenTV/sevenTVWebsocket.ts:197-201 | a rate-limited close that schedules a reconnect waits at least 30 s |
| SevenTVWebsocket.CloseClassification | src/handlers/sevenTV/sevenTVWebsocket.ts:205-213 | a close with a restart, maintenance, timeout or server-error code, or an unclean one, schedules the standard backoff; any other clean close does not reconnect |
| SevenTVWebsocket.TickCountsMisses | src/handlers/sevenTV/sevenTVWebsocket.ts:286-296 | a heartbeat tick counts a miss; the fourth miss in a row closes the socket with 4008 and resets the count |
| SevenTVWebsocket.HeartbeatResetsMisses | src/handlers/sevenTV/sevenTVWebsocket.ts:309-314 | a Heartbeat opcode clears the miss counter and changes nothing else |
| SevenTVWebsocket.HelloSubscribesOnce | src/handlers/sevenTV/sevenTVWebsocket.ts:265-299 | a Hello sends one `emote_set.*` subscription for the user's emote set and starts a heartbeat only when no interval handle is held |
| SevenTVWebsocket.EndOfStreamKeepsHandle | src/handlers/sevenTV/sevenTVWebsocket.ts:320-331 | end of stream stops the interval but keeps its handle, so a later Hello starts no heartbeat until a close forgets it |
| SevenTVWebsocket.ReconnectOpcodeCloses | src/handlers/sevenTV/sevenTVWebsocket.ts:254-264 | a Reconnect opcode closes the socket and then asks for a reconnect in 1 s |
| SevenTVWebsocket.SevenTVClient.constructor | src/handlers/sevenTV/sevenTVWebsocket.ts:115-137 | the client starts in the initial state for the user's emote set |
| SevenTVWebsocket.SevenTVClient.ScheduleReconnect | src/handlers/sevenTV/sevenTVWebsocket.ts:148-167 | the fields become the scheduling step of the old state |
| SevenTVWebsocket.SevenTVClient.OnReconnectTimer | src/handlers/sevenTV/sevenTVWebsocket.ts:162-166 | the timer is cleared, the retry count goes up and a new connection is made |
| SevenTVWebsocket.SevenTVClient.OnError | src/handlers/sevenTV/sevenTVWebsocket.ts:169-176 | an error before the socket opened schedules a reconnect; otherwise nothing changes |
| SevenTVWebsocket.SevenTVClient.OnOpen | src/handlers/sevenTV/sevenTVWebsocket.ts:178-186 | the retry count is reset and any pending timer cleared |
| SevenTVWebsocket.SevenTVClient.OnClose | src/handlers/sevenTV/sevenTVWebsocket.ts:188-214 | the fields become the close step: heartbeat stopped, then the rate-limit, recoverable or no-reconnect branch |
| SevenTVWebsocket.SevenTVClient.OnHeartbeatTick | src/handlers/sevenTV/sevenTVWebsocket.ts:286-296 | the fields become the tick step of the old state |
| SevenTVWebsocket.SevenTVClient.AddChangedEmotes | src/handlers/sevenTV/sevenTVWebsocket.ts:229-235 | the log gains exactly the adds of the entries, in order |
| SevenTVWebsocket.SevenTVClient.RemoveChangedEmotes | src/handlers/sevenTV/sevenTVWebsocket.ts:243-249 | the log gains exactly the removes of the entries, in order |
| SevenTVWebsocket.SevenTVClient.OnMessage | src/handlers/sevenTV/sevenTVWebsocket.ts:216-339 | corrected, from the parsed frame on: the fields become the message step for the frame's opcode |
| SevenTVWebsocket.BrowserMessageIgnoredAsWritten | src/handlers/sevenTV/sevenTVWebsocket.ts:216-218 | as written, a browser `MessageEvent`, which has no `utf8Data`, leaves the state and the log as they were (the socket is a browser `WebSocket`, line 137) |
| SevenTVWebsocket.BrowserHelloLostAsWritten | src/handlers/sevenTV/sevenTVWebsocket.ts:216-218 | as written, a browser event carrying a hello changes nothing, where the message step on the same frame subscribes to the emote set |
| BetterTTVWebsocket.ChannelName | src/handlers/bttv/betterTTVWebsocket.ts:24 | the channel name is `twitch:` followed by the broadcaster id, or by `null` when there is none |
| BetterTTVWebsocket.JoinSendsOne | src/handlers/bttv/betterTTVWebsocket.ts:13-27 | an open socket gets exactly one `join_channel` message naming the broadcaster's channel; a closed one gets none and a retry in 1 s |
| BetterTTVWebsocket.MessageDispatch | src/handlers/bttv/betterTTVWebsocket.ts:55-79 | `emote_delete` removes only when `data.emoteId` is a string, `emote_create` adds only when `data.emote` has a `code`, any other message does nothing |
| BetterTTVWebsocket.CreateIsPassedOn | src/handlers/bttv/betterTTVWebsocket.ts:67-75 | a create message whose emote has a code is passed on unchanged |
| BetterTTVWebsocket.BetterTTVClient.constructor | src/handlers/bttv/betterTTVWebsocket.ts:8-11 | a new client has sent nothing |
| BetterTTVWebsocket.BetterTTVClient.JoinChannel | src/handlers/bttv/betterTTVWebsocket.ts:13-27 | one attempt: the log gains the join message when the socket is open and a 1 s retry otherwise |
| BetterTTVWebsocket.BetterTTVClient.OnMessage | src/handlers/bttv/betterTTVWebsocket.ts:48-81 | corrected, from the parsed frame on: the log gains exactly the emote change the message dispatch calls for |
| BetterTTVWebsocket.BrowserMessageIgnoredAsWritten | src/handlers/bttv/betterTTVWebsocket.ts:48-50 | as written, a browser `MessageEvent`, which has no `utf8Data`, triggers no registry call (the socket is a browser `WebSocket`, line 11) |
| BetterTTVWebsocket.BrowserCreateLostAsWritten | src/handlers/bttv/betterTTVWebsocket.ts:48-50 | as written, a browser event carrying an `emote_create` adds nothing, where the dispatch of the same frame adds the emote |
| LoadEmotes.BetterTTVEntry | src/loadEmotes.ts:161-173 | the entry is keyed by the emote's code, with the 2x CDN image of its id and type, no size, no modifier and the code as name |
| LoadEmotes.AddBetterTTVEmote | src/loadEmotes.ts:161-175 | the shared emote table becomes the merge of the one-entry record into it |
| LoadEmotes.AddBetterTTVEmotes | src/loadEmotes.ts:180 | the shared table becomes the run of assignments of the emotes' entries, in order (also line 187) |
| LoadEmotes.LoadBetterTTVUserEmotes | src/loadEmotes.ts:177-182 | the channel's shared emotes are added when the user was fetched; otherwise nothing changes |
| LoadEmotes.LoadBetterTTVGlobalEmotes | src/loadEmotes.ts:184-189 | the global emotes are added when they were fetched; otherwise nothing changes |
| LoadEmotes.RemoveBetterTTVEmoteAsWrittenKeeps | src/loadEmotes.ts:153-159 | as written, an emote in the shared table under any name survives the removal of its id |
| LoadEmotes.BetterTTVDeleteIsLost | src/loadEmotes.ts:153-159 | as written, a BetterTTV delete of an emote just added leaves that emote in the table |
| LoadEmotes.RemoveBetterTTVEmote | src/loadEmotes.ts:153-159 | corrected: every emote with the id is dropped from the shared table |
| LoadEmotes.RemoveAfterAddEmote | src/loadEmotes.ts:153-175 | removing by id after an add takes out exactly the names whose emote has that id, the new name among them, and keeps every other entry |
| LoadEmotes.FrankerFaceZEntry | src/loadEmotes.ts:46-61 | the entry is keyed by name, with the 1x image, the emoticon's size, modifier data and the id in decimal |
| LoadEmotes.AddFrankerFaceZEmote | src/loadEmotes.ts:46-63 | the shared emote table becomes the merge of the one-entry record into it |
| LoadEmotes.AddFrankerFaceZSet | src/loadEmotes.ts:72 | the shared table becomes the run of assignments of the set's emoticons, in order (also line 82) |
| LoadEmotes.FrankerFaceZDefaultEntries | src/loadEmotes.ts:68-74 | the entries of the default sets in the order of `default_sets`; an id with no set adds nothing |
| LoadEmotes.LoadFrankerFaceZGlobalEmotes | src/loadEmotes.ts:65-76 | every default set that exists is added, in the order of `default_sets`, when the fetch succeeded with sets |
| LoadEmotes.LoadFrankerFaceZRoomEmotes | src/loadEmotes.ts:78-85 | every set of the room is added, in the record's order, when the fetch succeeded with sets |
| LoadEmotes.LargeFileIndex | src/loadEmotes.ts:95 | the index of the first `3x.webp` or `3x.avif` file, and no earlier file has either name |
| LoadEmotes.SevenTVLargeFile | src/loadEmotes.ts:95-110 | with a large file the entry is keyed by the emote's name, with the first large file's URL and size |
| LoadEmotes.SevenTVFallback | src/loadEmotes.ts:111-133 | without a large file: nothing when the fetch fails, a throw when the fetched emote has fewer than three files, and otherwise the third file |
| LoadEmotes.SevenTVFallbackMisnames | src/loadEmotes.ts:122 | the fallback stores the entry under the fetched name while its `name` field is the set's name, so the table need not be keyed by name (also line 131) |
| LoadEmotes.SevenTVSetLoadStaysFailed | src/loadEmotes.ts:142-149 | once a call has thrown, the later emotes change nothing |
| LoadEmotes.SevenTVSetLoadEntries | src/loadEmotes.ts:145-147 | when no call throws, loading a set is the run of assignments of its entries |
| LoadEmotes.SevenTVSetLoadFails | src/loadEmotes.ts:145-147 | loading a set throws exactly when one of its emotes throws |
| LoadEmotes.AddSevenTVEmote | src/loadEmotes.ts:91-136 | the shared table becomes the outcome of the emote: unchanged, merged with its entry, or unchanged with a throw reported |
| LoadEmotes.AddSevenTVSet | src/loadEmotes.ts:145-147 | the shared table becomes the set load of its emotes, stopping at the first throw |
| LoadEmotes.SevenTVSetIds | src/loadEmotes.ts:139-141 | the user's set then `global`, and nothing without a user |
| LoadEmotes.LoadSevenTVEmotes | src/loadEmotes.ts:138-151 | the shared table becomes the load of the user's set and then the global set |
| LoadEmotes.SevenTVGlobalWins | src/loadEmotes.ts:141-149 | with both sets fetched and no throw, a name in the global set takes the global entry; any other name takes the user set's entry if it has one |
| LoadEmotes.LoadEmotes | src/loadEmotes.ts:19-44 | the table becomes 7TV's load, then BetterTTV's, then FrankerFaceZ's, each only when enabled; the push clients started are recorded |
| LoadEmotes.LoadBetterTTV | src/loadEmotes.ts:34-38 | when BetterTTV is enabled, user emotes then global ones are added; otherwise nothing changes (the push client's start is recorded by `LoadOtherProviders`) |
| LoadEmotes.LoadFrankerFaceZ | src/loadEmotes.ts:40-43 | room emotes then global ones are added |
| LoadEmotes.ProviderPrecedence | src/loadEmotes.ts:24-43 | later providers win a name clash: FrankerFaceZ's entry if it has one, else BetterTTV's, else what 7TV left |
| LoadEmotes.ClientsStarted | src/loadEmotes.ts:24-38 | the 7TV push client starts first and exactly when 7TV is on and the user is found; the BetterTTV one exactly when BetterTTV is on and 7TV did not throw |
| LoadEmotes.NonSevenTVProvidersKeyByName | src/loadEmotes.ts:46-63 | BetterTTV and FrankerFaceZ keep the table keyed by name (also lines 161-175) |
| LoadEmotes.RemoveSevenTVEmote | src/loadEmotes.ts:87-89 | exactly the store's remove by id |
| LoadEmotes.LoadOtherProviders | src/loadEmotes.ts:34-43 | the table becomes BetterTTV's load and then FrankerFaceZ's, each only when enabled, and the BetterTTV push client is started exactly when BetterTTV is enabled |
| FetchCheers.CheersUrlScopes | src/handlers/twitch/helix/fetchCheers.ts:15-18 | the channel endpoint is the global one followed by `?broadcaster_id=` and the broadcaster id (`null` when missing); the global one ignores the id |
| FetchCheers.CheerNameParts | src/handlers/twitch/helix/fetchCheers.ts:53 | a tier's key starts with the prefix and ends in the decimal bits, and both read back from it |
| FetchCheers.CheerEntry | src/handlers/twitch/helix/fetchCheers.ts:53-59 | corrected: the record carries the key as name, the prefix, the tier's colour, its dark animated 4x image and its minimum bits |
| FetchCheers.CheerEntriesCover | src/handlers/twitch/helix/fetchCheers.ts:51-61 | each tier of each cheermote contributes an entry under its own key, carrying its prefix and bits |
| FetchCheers.CheerEntriesSound | src/handlers/twitch/helix/fetchCheers.ts:51-61 | every entry comes from some tier of some cheermote |
| FetchCheers.PutTiers | src/handlers/twitch/helix/fetchCheers.ts:52-60 | the table becomes the run of assignments of the cheermote's tiers, in order |
| FetchCheers.SaveCheers | src/handlers/twitch/helix/fetchCheers.ts:48-64 | an empty list changes nothing; otherwise the store's cheer table becomes its merge with the table built tier by tier |
| FetchCheers.FetchCheers | src/handlers/twitch/helix/fetchCheers.ts:9-46 | a request is sent exactly when the token is set, to the scope's URL with the client id and token; the table is saved only for a non-empty validated response |
| FetchCheers.SavedCheerLookup | src/handlers/twitch/helix/fetchCheers.ts:48-64 | after a save a key holds the last tier written under it, or what the table held before when no tier has that key |
| FetchCheers.FindChatCheerAsWrittenThrows | src/handlers/twitch/helix/fetchCheers.ts:54-59 | as written, the saved record has no prefix, so once any cheer is saved rendering any cheermote throws |
| FetchBadges.BadgesUrlScopes | src/handlers/twitch/helix/fetchBadges.ts:15-18 | the channel endpoint names the broadcaster and differs from the global one |
| FetchBadges.BadgeKeyCollides | src/handlers/twitch/helix/fetchBadges.ts:54 | the `set_version` key is not injective: an underscore inside a set id can make two badges share one |
| FetchBadges.BadgeEntry | src/handlers/twitch/helix/fetchBadges.ts:54-58 | the record carries the key as name and the version's 4x image |
| FetchBadges.BadgeEntriesCover | src/handlers/twitch/helix/fetchBadges.ts:52-60 | each version of each set contributes its entry |
| FetchBadges.PutVersions | src/handlers/twitch/helix/fetchBadges.ts:53-59 | the table becomes the run of assignments of the set's versions, in order |
| FetchBadges.SaveBadges | src/handlers/twitch/helix/fetchBadges.ts:49-63 | an empty list changes nothing; otherwise the store's badge table becomes its merge with the table built version by version |
| FetchBadges.FetchBadges | src/handlers/twitch/helix/fetchBadges.ts:9-47 | a request is sent exactly when the token is set, to the scope's URL; the table is saved only for a non-empty validated response |
| FetchBadges.SavedBadgeLookup | src/handlers/twitch/helix/fetchBadges.ts:49-63 | a message badge finds the last version saved under its key, or what the table held before |
| FetchBadges.UniqueBadgeFound | src/handlers/twitch/helix/fetchBadges.ts:54-58 | when a version's key is unique in the response, a message badge naming it gets that version's image |
| ChatImageRenderer.WordSplit | src/views/Chat/ChatImageRenderer.tsx:12 | an odd number of pieces, so a word, possibly empty, comes first and last (also line 88); the other properties of the split are the three lemmas below |
| ChatImageRenderer.WordSplitConcat | src/views/Chat/ChatImageRenderer.tsx:88 | the pieces of the split concatenate back to the text |
| ChatImageRenderer.WordSplitShape | src/views/Chat/ChatImageRenderer.tsx:12 | words hold no whitespace and the separators are non-empty whitespace runs (also line 88) |
| ChatImageRenderer.WordSplitInteriorWords | src/views/Chat/ChatImageRenderer.tsx:12 | every word between two separators is non-empty, so the separators are the maximal whitespace runs the capturing split keeps (also line 88) |
| ChatImageRenderer.LastQualifying | src/views/Chat/ChatImageRenderer.tsx:34-43 | the result qualifies (same prefix ignoring case, minimum bits reached) and no later cheer in the table qualifies |
| ChatImageRenderer.FindChatCheer | src/views/Chat/ChatImageRenderer.tsx:34-43 | the loop over the table's values keeps the last qualifying cheer |
| ChatImageRenderer.SavedCheerFound | src/handlers/twitch/helix/fetchCheers.ts:51-62 | with the prefix stored, a cheermote whose bits reach a saved tier with a unique key finds a qualifying tier |
| ChatImageRenderer.MessagePartsWellBuilt | src/views/Chat/ChatImageRenderer.tsx:55-170 | an emote with flags carries exactly the modifier words since the previous emote or cheer, no hidden table emote is emitted as an emote, and only modifier words are skipped |
| ChatImageRenderer.CheerFragmentPart | src/views/Chat/ChatImageRenderer.tsx:56-75 | a cheermote fragment with a qualifying tier adds one part carrying that tier and the fragment's bits, and clears the pending flags |
| ChatImageRenderer.EmoteFragmentPart | src/views/Chat/ChatImageRenderer.tsx:15-28 | a fragment with an emote and no qualifying cheer adds one Twitch emote part at the CDN address of its id (also lines 77-86) |
| ChatImageRenderer.ModifierWordPart | src/views/Chat/ChatImageRenderer.tsx:89-96 | a BetterTTV modifier word adds one skipped part and appends its flag to the pending list |
| ChatImageRenderer.TableEmoteWordPart | src/views/Chat/ChatImageRenderer.tsx:97-105 | a visible table emote takes a copy of the pending flags and empties the list |
| ChatImageRenderer.HiddenEmoteWord | src/views/Chat/ChatImageRenderer.tsx:97 | a hidden table emote is treated as text: none of its pieces is emitted as that emote (also lines 106-167) |
| ChatImageRenderer.PartsBuilder.constructor | src/views/Chat/ChatImageRenderer.tsx:45-53 | no parts and no pending flags |
| ChatImageRenderer.PartsBuilder.AddPiece | src/views/Chat/ChatImageRenderer.tsx:109-166 | the builder takes the piece step: an emoji part with the pending flags, or a text part |
| ChatImageRenderer.PartsBuilder.AddWord | src/views/Chat/ChatImageRenderer.tsx:88-168 | the builder takes the word step: modifier, table emote or the word's pieces |
| ChatImageRenderer.PartsBuilder.AddFragment | src/views/Chat/ChatImageRenderer.tsx:55-169 | the builder takes the fragment step: cheer, Twitch emote or the fragment's words |
| ChatImageRenderer.BuildMessageParts | src/views/Chat/ChatImageRenderer.tsx:55-170 | the parts are those of the message's fragments in order |
| ChatImageRenderer.AbsorbModifiers | src/views/Chat/ChatImageRenderer.tsx:197-251 | the lookahead marks the modifier emotes that follow (over single spaces) as skipped and returns their flags without `hidden` and the 7TV zero-width emotes |
| ChatImageRenderer.CheerAmountOfCheermote | src/views/Chat/ChatImageRenderer.tsx:177 | for a prefix with no digits, the amount shown is the cheermote's bits |
| ChatImageRenderer.GrowWidth | src/views/Chat/ChatImageRenderer.tsx:266-270 | the emote's width, 108 when it has none or 0, at most 112 |
| ChatImageRenderer.RenderParts | src/views/Chat/ChatImageRenderer.tsx:174-295 | every part is rendered in order, each against the array as the earlier lookaheads left it |
| ChatImageRenderer.AbsorbedIsNotRendered | src/views/Chat/ChatImageRenderer.tsx:189-191 | a modifier emote absorbed by the emote before it is not rendered again on its own (also line 237) |
| ChatImageRenderer.RenderKeepsContent | src/views/Chat/ChatImageRenderer.tsx:237 | the lookahead never changes a part's text, emote, cheer or flags |
| ChatImageRenderer.MarkModifier | src/views/Chat/ChatImageRenderer.tsx:226-245 | only the modifier part is marked skipped; it contributes its flags without `hidden` and itself as a zero-width emote when it is a 7TV zerowidth |
| ChatImageRenderer.LookFromShape | src/views/Chat/ChatImageRenderer.tsx:197-251 | the lookahead marks only modifier parts after the emote, never passes on `hidden`, and collects only 7TV zero-width emotes |
| Filters.EscapeChar | src/utils/filters.ts:19 | a regular-expression metacharacter gets a backslash in front of it, every other character is kept as it is |
| Filters.ReEscapeRoundTrip | src/utils/filters.ts:19 | escaping loses nothing: reading the escaped text back (a backslash takes the next character literally) gives the original text |
| Filters.ToCaseInsensitiveNoLetters | src/utils/filters.ts:51-62 | the case expansion leaves a text without ASCII letters unchanged |
| Filters.RuleBodyRenders | src/utils/filters.ts:22-47 | corrected, each rule's lookahead body, case handling and contains wrapping included, is the rendering of the atom pattern the rule stands for |
| Filters.FilterRegexNull | src/utils/filters.ts:66-91 | there is no expression exactly when the rule list is empty or every rule's pattern is empty |
| Filters.BuildFilterRegex | src/utils/filters.ts:66-101 | corrected, the loop pushes one lookahead per rule with a pattern, in rule order, and the result is the chained source `^(?!…)….*$`, or none when no lookahead was pushed |
| Filters.FilterPatterns | src/utils/filters.ts:73-87 | there is one pattern per lookahead pushed |
| Filters.FilterRegexRenders | src/utils/filters.ts:89-94 | corrected, an expression exists exactly when some rule has a pattern, and its source is the chain of the rules' rendered patterns |
| Filters.RuleHits | src/utils/filters.ts:22-47 | on a name without line breaks, a rule's lookahead fails exactly when the rule excludes the name: an exact rule the whole name, a contains rule any part of it, a wildcard rule a glob match of it, each up to case unless the rule is case-sensitive |
| Filters.FilterAdmits | src/utils/filters.ts:66-101 | corrected, the compiled filter admits a name exactly when the name has no line break and no rule with a pattern excludes it (both directions) |
| Filters.GlobLiteral | src/utils/filters.ts:29-43 | a case-sensitive wildcard pattern without `*` or `?` matches exactly its own text |
| Filters.ContainsIgnoringCase | src/utils/filters.test.ts:5-13 | a case-insensitive contains rule `foo` admits `bar` and excludes `foobar` and `FOObar` |
| Filters.ContainsWithCase | src/utils/filters.test.ts:15-22 | the same rule made case-sensitive excludes `foobar` and admits `FOObar` |
| Filters.ExactIgnoringCase | src/utils/filters.test.ts:24-32 | a case-insensitive exact rule `Alice` excludes `Alice` and `ALICE` and admits `Alice1` |
| Filters.WildcardWithCase | src/utils/filters.test.ts:34-41 | a case-sensitive wildcard `a*e` excludes `axe` and admits `Axe` |
| Filters.MixedRules | src/utils/filters.test.ts:43-54 | with an exact case-sensitive `Mod` and a case-insensitive contains `bot`, `Mod` and `NightBot` are excluded and `MOD` is admitted |
| Filters.PlaceholderInPatternAsWritten | src/utils/filters.ts:33-42 | as written, the wildcard pattern `__Q__` compiles to `^.$`, which excludes the name `x` although the rule does not exclude it |
| Filters.PlaceholderInPatternCorrected | src/utils/filters.ts:29-43 | rewritten character by character, the same pattern compiles to `^__Q__$` and excludes exactly the name `__Q__` |
| FilterUrl.ToUrlAlphabet | src/utils/filters.ts:113 | every `+` becomes `-` and every `/` becomes `_`, position by position, length kept |
| FilterUrl.FromUrlAlphabet | src/utils/filters.ts:117 | every `-` becomes `+` and every `_` becomes `/`, position by position, length kept |
| FilterUrl.TrimPaddingShape | src/utils/filters.ts:113 | dropping the trailing `=` run keeps a prefix, removes only `=` and leaves no `=` at the end |
| FilterUrl.FromBase64Url | src/utils/filters.ts:116-122 | the loop appends `=` until the length is a multiple of 4; the result is the standard-alphabet text padded to a block |
| FilterUrl.PadLength | src/utils/filters.ts:118-120 | padding a text to a block adds exactly the padding a base64 text of at most two `=` had |
| FilterUrl.UrlRoundTrip | src/utils/filters.ts:112-122 | standard base64 (alphabet characters, then at most two `=`, a multiple of 4 long) turned into the URL form and back is unchanged |
| FilterUrl.UrlRoundTripBack | src/utils/filters.ts:112-122 | a text in the URL alphabet turned into standard base64 and back is unchanged |
| FilterUrl.EncodeFiltersToUrl | src/utils/filters.ts:124-135 | the empty configuration, and a configuration `btoa` cannot encode, give the empty string |
| FilterUrl.DecodeFiltersFromUrl | src/utils/filters.ts:137-151 | the result always has a `rules` array; a missing or empty parameter gives the empty configuration |
| FilterUrl.EncodeDecodeRoundTrip | src/utils/filters.ts:124-151 | a non-empty configuration read back from the URL text it was written to is the same configuration, given that `atob` undoes `btoa` and `JSON.parse` undoes `JSON.stringify` |
| ShadowCommon.DepthIsBalance | src/components/TextShadowPicker/common.ts:14-15 | while no `)` comes before its `(`, the scan's parenthesis depth is the number of `(` minus the number of `)` |
| ShadowCommon.UnmatchedCloseIgnored | src/components/TextShadowPicker/common.ts:15 | an unmatched `)` leaves the depth at 0 instead of going negative, so a later `(` counts from there |
| ShadowCommon.ScanInvariant | src/components/TextShadowPicker/common.ts:9-24 | the loop's state: the tokens pushed so far followed by the current token spell the value without its top-level spaces, every pushed token is non-empty, and the depth is the depth after the text read |
| ShadowCommon.ShadowTokensSound | src/components/TextShadowPicker/common.ts:9-25 | the tokens are all non-empty and together spell the value with its top-level spaces removed |
| ShadowCommon.TokensOfWords | src/components/TextShadowPicker/common.ts:9-25 | words without spaces or parentheses, joined by single spaces, are cut back into exactly those words |
| ShadowCommon.ParseShadowString | src/components/TextShadowPicker/common.ts:7-44 | the scanning loop yields the parts of the token list read in the order x, y, blur, colour, or colour, x, y, blur when the first token is a colour |
| ShadowCommon.ColourFirstOrder | src/components/TextShadowPicker/common.ts:28-41 | a value whose first token is a hex or `rgb(` colour is read as colour, x, y, blur |
| ShadowCommon.ShadowValues | src/components/TextShadowPicker/common.ts:47 | no part written is empty: a missing blur is dropped |
| ShadowCommon.BuildDefaults | src/components/TextShadowPicker/common.ts:46-49 | a shadow with no parts is written `0 0 #000000` |
| ShadowCommon.ParseBuildRoundTrip | src/components/TextShadowPicker/common.ts:7-49 | a shadow of four plain words, the first not a colour, written and read back gives the same four parts |
| ShadowCommon.BuildWithoutBlurRereads | src/components/TextShadowPicker/common.ts:7-49 | a shadow written without a blur reads back with its colour in the blur position and no colour |
| ShadowCommon.FirstHexMatch | src/components/TextShadowPicker/common.ts:52 | the search finds the leftmost `#` followed by at least six hexadecimal digits, and none when there is no such place |
| ShadowCommon.ColorAt | src/components/TextShadowPicker/common.ts:53-59 | at a match the colour is `#` and six hex digits and the alpha is below 256 |
| ShadowCommon.ParseHexColorFound | src/components/TextShadowPicker/common.ts:51-62 | a colour is found exactly when the text has `#` followed by six hexadecimal digits somewhere |
| ShadowCommon.HexColorRoundTrip | src/components/TextShadowPicker/common.ts:51-62 | `#rrggbb` reads back as itself with alpha 255, and `#rrggbbaa` as `#rrggbb` with the alpha byte `aa` |
| ShadowCommon.SevenDigitsIgnoreLast | src/components/TextShadowPicker/common.ts:56-59 | seven hex digits read as the first six with alpha 255 |
| ShadowCommon.HexColorInText | src/components/TextShadowPicker/common.ts:52 | a hex colour after text without `#` is found inside the larger text |
| ShadowCommon.RgbOpenPrefix | src/components/TextShadowPicker/common.ts:65 | the reader opens exactly on `rgb(` or `rgba(`, in any case |
| ShadowCommon.Clamp255 | src/components/TextShadowPicker/common.ts:67-69 | a channel above 255 becomes 255, any other is kept |
| ShadowCommon.RgbHex | src/components/TextShadowPicker/common.ts:76-77 | the colour is `#` and three pairs of hex digits, one per clamped channel |
| ShadowCommon.ParseRgbColorShape | src/components/TextShadowPicker/common.ts:64-80 | a colour read from `rgb(...)` is a six-digit hex token, and the value opened with `rgb(` or `rgba(` |
| ShadowCommon.HexTokenRoundTrip | src/components/TextShadowPicker/common.ts:51-62 | a six-digit hex token reads back as itself with alpha 255 |
| ShadowCommon.RgbThenHex | src/components/TextShadowPicker/common.ts:51-80 | whatever the `rgb` reader gives, the hex reader reads back unchanged with alpha 255 |
| ShadowCommon.RgbRoundTrip | src/components/TextShadowPicker/common.ts:64-80 | `rgb(r, g, b)` with channels of one to three digits reads as the hex colour of the clamped channel values, with no alpha |
| ShadowCommon.RgbBytesRoundTrip | src/components/TextShadowPicker/common.ts:64-80 | channels below 256 written in decimal read back as their own two-digit hex pairs |
| ShadowCommon.RgbClamps | src/components/TextShadowPicker/common.ts:67-77 | `300, 0, 999` gives `#ff00ff`; in-range channels give pairs whose hex values are the channels |
| ShadowCommon.RgbRejectsLongChannel | src/components/TextShadowPicker/common.ts:65-66 | a channel of four digits is not read |
| ShadowStacker.SplitShadows | src/views/Main/TextShadowPicker/TextShadowStacker.tsx:65-73 | every shadow read from the value is non-empty, trimmed and free of commas; a missing or empty value gives none |
| ShadowStacker.SplitJoinShadows | src/views/Main/TextShadowPicker/TextShadowStacker.tsx:65-75 | shadows that are non-empty, trimmed and free of commas, joined with `, ` and split again, come back unchanged |
| ShadowStacker.SplitShadowsNormal | src/views/Main/TextShadowPicker/TextShadowStacker.tsx:65-75 | splitting is normalising: splitting the join of a split gives the same list |
| ShadowStacker.InitialShadows | src/views/Main/TextShadowPicker/TextShadowStacker.tsx:80-81 | the starting list is never empty: the shadows of the value, or the default shadow when the value has none |
| ShadowStacker.SyncedShowsValue | src/views/Main/TextShadowPicker/TextShadowStacker.tsx:84-91 | after the sync effect, the joined list is the joined list the value stands for, and the list is not empty |
| ShadowStacker.SyncedIdempotent | src/views/Main/TextShadowPicker/TextShadowStacker.tsx:84-91 | running the sync effect a second time with the same value changes nothing, so the effect settles |
| ShadowStacker.EchoKeepsState | src/views/Main/TextShadowPicker/TextShadowStacker.tsx:84-91 | when the parent hands back the string the stacker emitted, the list is left as it is |
| ShadowStacker.UpdatedAt | src/views/Main/TextShadowPicker/TextShadowStacker.tsx:98 | the shadow at the index becomes the new value, every other shadow stays, the length is kept (an index off the list changes nothing) |
| ShadowStacker.UpdateUndone | src/views/Main/TextShadowPicker/TextShadowStacker.tsx:98 | writing the old value back undoes an update |
| ShadowStacker.RemovedAt | src/views/Main/TextShadowPicker/TextShadowStacker.tsx:109-110 | removal drops the shadow at the index and shifts the rest down; removing the last shadow leaves the default one; the list is never empty |
| ShadowStacker.RemoveUndoesAdd | src/views/Main/TextShadowPicker/TextShadowStacker.tsx:109-120 | removing the shadow just added gives the list back |
| ShadowStacker.EditsKeepEntries | src/views/Main/TextShadowPicker/TextShadowStacker.tsx:95-124 | update (with a proper shadow), remove and add keep every shadow non-empty, trimmed and free of commas, so the emitted string splits back into the list |
| ShadowStacker.MovedAt | src/views/Main/TextShadowPicker/TextShadowStacker.tsx:129-133 | after moving position `i` to `j`, each position holds the shadow it is given by the shift between `i` and `j`, the length kept |
| ShadowStacker.MovedPermutes | src/views/Main/TextShadowPicker/TextShadowStacker.tsx:129-133 | a move is a permutation: the same shadows, as a multiset |
| ShadowStacker.MovedBack | src/views/Main/TextShadowPicker/TextShadowStacker.tsx:129-133 | moving from `j` back to `i` undoes a move from `i` to `j` |
| ShadowStacker.ShiftDown | src/views/Main/TextShadowPicker/TextShadowStacker.tsx:132 | `splice(idx, 1)` in place: positions from `i` up to `j` take the next one's shadow, the others keep theirs |
| ShadowStacker.ShiftUp | src/views/Main/TextShadowPicker/TextShadowStacker.tsx:133 | `splice(newIndex, 0, item)` in place: positions after `j` up to `i` take the previous one's shadow, the others keep theirs |
| ShadowStacker.MoveInPlace | src/views/Main/TextShadowPicker/TextShadowStacker.tsx:129-133 | the array after the two splices is the list with the shadow moved from `i` to `j` |
| ShadowStacker.Stacker.constructor | src/views/Main/TextShadowPicker/TextShadowStacker.tsx:80-81 | the state starts as the initial list of the value |
| ShadowStacker.Stacker.Sync | src/views/Main/TextShadowPicker/TextShadowStacker.tsx:84-91 | the state becomes the value's list when its join differs from the current join, and stays otherwise |
| ShadowStacker.Stacker.UpdateAt | src/views/Main/TextShadowPicker/TextShadowStacker.tsx:95-104 | the state becomes the updated list and the joined new list is emitted |
| ShadowStacker.Stacker.RemoveAt | src/views/Main/TextShadowPicker/TextShadowStacker.tsx:106-116 | the state becomes the list without the shadow (the default when it was the last) and the join is emitted |
| ShadowStacker.Stacker.AddNew | src/views/Main/TextShadowPicker/TextShadowStacker.tsx:118-124 | the default shadow is appended and the join is emitted |
| ShadowStacker.Stacker.Move | src/views/Main/TextShadowPicker/TextShadowStacker.tsx:126-139 | a target inside the list moves the shadow there and emits the join; a target outside leaves the state and emits nothing |
| TextStroke.KeywordAt | src/views/Main/TextStrokePicker/TextStrokeEditor.tsx:73 | a keyword match is the text as written at that index, and it lowers to `thin`, `medium` or `thick` |
| TextStroke.FirstKeyword | src/views/Main/TextStrokePicker/TextStrokeEditor.tsx:73 | the search finds the leftmost keyword match bounded by word boundaries, and none when there is no match anywhere |
| TextStroke.LengthAt | src/views/Main/TextStrokePicker/TextStrokeEditor.tsx:78 | a length match is non-empty and has a word boundary at both ends |
| TextStroke.FirstLength | src/views/Main/TextStrokePicker/TextStrokeEditor.tsx:78 | the search finds the leftmost length match, and none when there is no match anywhere |
| TextStroke.ExtractStroke | src/views/Main/TextStrokePicker/TextStrokeEditor.tsx:64-65 | a missing or empty value gives the width `1px` and the colour `#000000ff` |
| TextStroke.KeywordWins | src/views/Main/TextStrokePicker/TextStrokeEditor.tsx:72-76 | corrected, a keyword anywhere in the value wins over any length; it becomes the width in lower case and the colour is what is left once the match is cut out |
| TextStroke.LengthWidth | src/views/Main/TextStrokePicker/TextStrokeEditor.tsx:77-82 | corrected, without a keyword, the first length is the width, kept as written, and the colour is the rest |
| TextStroke.NoWidthDefaults | src/views/Main/TextStrokePicker/TextStrokeEditor.tsx:85-90 | with neither a keyword nor a length, the width is `1px` and the colour is the normalised default black |
| TextStroke.ExtractedWidth | src/views/Main/TextStrokePicker/TextStrokeEditor.tsx:64-93 | every width read is a keyword or a whole length accepted by `lengthRegex` |
| TextStroke.AsWrittenAgrees | src/views/Main/TextStrokePicker/TextStrokeEditor.tsx:76-81 | the source's `replace` and the cut at the match agree whenever the matched text does not occur earlier in the value |
| TextStroke.StrokeRoundTrip | src/views/Main/TextStrokePicker/TextStrokeEditor.tsx:64-125 | a keyword or px width and a `#rrggbbaa` colour, written by `buildStroke` and read back, give the same width and colour |
| TextStroke.ColorFirstAsWritten | src/views/Main/TextStrokePicker/TextStrokeEditor.tsx:73-76 | as written, `mediumblue medium` reads as the width `medium`, and the text `blue medium` goes to the colour normaliser |
| TextStroke.ColorFirstCorrected | src/views/Main/TextStrokePicker/TextStrokeEditor.tsx:73-76 | cutting the match where it was found reads `mediumblue medium` as the width `medium`, and the text `mediumblue` goes to the colour normaliser |
| TextStroke.KeywordOf | src/views/Main/TextStrokePicker/TextStrokeEditor.tsx:164-165 | the width shows a keyword exactly when it is one, ignoring case, and that keyword is its lower-case form |
| TextStroke.CustomWidth | src/views/Main/TextStrokePicker/TextStrokeEditor.tsx:168-173 | switching to custom maps `medium` to `2px`, `thick` to `3px` and anything else to `1px`, always a valid px length |
| TextStroke.SegmentSelects | src/views/Main/TextStrokePicker/TextStrokeEditor.tsx:164-177 | after a keyword button the control shows that keyword; after the custom button it shows custom mode with a valid length |
| TextStroke.StrokeEditor.constructor | src/views/Main/TextStrokePicker/TextStrokeEditor.tsx:134-137 | width and colour start as the stroke read from the value, with no emission suppressed |
| TextStroke.StrokeEditor.SyncFromValue | src/views/Main/TextStrokePicker/TextStrokeEditor.tsx:140-150 | width and colour become the stroke read from the value, and the next emission is suppressed when either changed |
| TextStroke.StrokeEditor.Emit | src/views/Main/TextStrokePicker/TextStrokeEditor.tsx:152-162 | a suppressed emission clears the flag and emits nothing; otherwise the built stroke is emitted when it differs from the value |
| TextStroke.StrokeEditor.HandleSegment | src/views/Main/TextStrokePicker/TextStrokeEditor.tsx:167-177 | the width becomes the pressed keyword, or the px width of the current keyword for custom |
| TextStroke.StrokeEditor.OnCustomWidthChange | src/views/Main/TextStrokePicker/TextStrokeEditor.tsx:179-184 | the width becomes the typed text in both branches |
| FilterEditor.RulesOf | src/components/FilterEditor/FilterEditor.tsx:16 | a configuration without rules is edited as an empty list; otherwise its own rules are |
| FilterEditor.AddRule | src/components/FilterEditor/FilterEditor.tsx:19-22 | the list grows by one, the old rules are kept in front, and the new last rule is an exact, case-insensitive rule with an empty pattern |
| FilterEditor.MergeIdempotent | src/components/FilterEditor/FilterEditor.tsx:26 | applying a patch twice is applying it once, and a patch with no fields changes nothing |
| FilterEditor.MergeUndone | src/components/FilterEditor/FilterEditor.tsx:26 | a patch that writes back every old field undoes any patch |
| FilterEditor.UpdateRule | src/components/FilterEditor/FilterEditor.tsx:24-28 | the rule at the index becomes the rule with the patch's fields laid over it; every other rule and the length stay |
| FilterEditor.RemoveRule | src/components/FilterEditor/FilterEditor.tsx:30-33 | the rule at an index on the list is dropped and the later ones shift down; an index off the list changes nothing |
| FilterEditor.RemoveRulePermutes | src/components/FilterEditor/FilterEditor.tsx:30-33 | removal loses exactly the removed rule: the remaining rules plus that one are the old rules as a multiset |
| FilterEditor.RemoveUndoesAdd | src/components/FilterEditor/FilterEditor.tsx:19-33 | removing the rule just added gives the list back |
| FilterEditor.ClearAll | src/components/FilterEditor/FilterEditor.tsx:35 | clearing leaves no rules |
| FilterEditor.LookaheadsAppend | src/utils/filters.ts:71-87 | the lookaheads of two rule lists one after the other are the lookaheads of each, in order |
| FilterEditor.AddRuleKeepsFilter | src/components/FilterEditor/FilterEditor.tsx:19-22 | a new rule has an empty pattern, so adding one leaves the compiled filter expression as it was |
| FilterEditor.RemoveEmptyRuleKeepsFilter | src/components/FilterEditor/FilterEditor.tsx:30-33 | removing a rule with an empty pattern leaves the compiled filter expression as it was |
| FilterEditor.ClearAllRemovesFilter | src/components/FilterEditor/FilterEditor.tsx:35 | after clearing there is no filter expression |
| ChatSearchParams.Get | src/views/Chat/useChatSearchParams.ts:5 | a name is missing exactly when no pair has it; otherwise the value is that of the first pair with the name |
| ChatSearchParams.GetAppend | src/views/Chat/useChatSearchParams.ts:5 | pairs after one with the name do not change its value; before any such pair, only the later pairs decide |
| ChatSearchParams.OnFlagsNeverOnAsWritten | src/views/Chat/useChatSearchParams.ts:7-8 | as written, with the flags missing from the constants, entry animation, avatars, borders and name aliases are off whatever the query says (also lines 44, 47, 71) |
| ChatSearchParams.OnFlagsOffOnlyOnFalse | src/views/Chat/useChatSearchParams.ts:7-8 | with the overlay's defaults, entry animation, avatars, borders and name aliases are off exactly when their parameter is the text `false` (the same reading at lines 44, 47 and 73) |
| ChatSearchParams.OffFlagsOnOnlyOnTrue | src/views/Chat/useChatSearchParams.ts:20-21 | with the overlay's defaults, exit animation, drop shadow, thick shadow, the colon and the text stroke are on exactly when their parameter is the text `true` (the same reading at lines 30, 37, 50-51 and 54-55) |
| ChatSearchParams.StringOrFallsBack | src/views/Chat/useChatSearchParams.ts:11 | a missing or empty parameter gives the default, any other its own text |
| ChatSearchParams.TextSettingsFallBack | src/views/Chat/useChatSearchParams.ts:10-11 | background and foreground colour, drop-shadow and text-stroke settings and font family are each their parameter when it is non-empty and their default otherwise (the same reading at lines 34, 41, 58 and 65) |
| ChatSearchParams.DefaultSizeTexts | src/constants.ts:28-41 | the default sizes render as `100vh`, `500px`, `1em` and `5px` |
| ChatSearchParams.SizesFallBack | src/views/Chat/useChatSearchParams.ts:13-18 | height and width (and font size and padding, lines 61-62 and 68-70) are their parameter when it is non-empty, and otherwise the rendered default value and unit |
| ChatSearchParams.SecondsReadsPresentParam | src/views/Chat/useChatSearchParams.ts:23-27 | the exit delay is the default only when the parameter is missing; an empty parameter is 0 and a parameter of digits is the number it spells |
| ChatSearchParams.EmptyQueryIsDefaults | src/views/Chat/useChatSearchParams.ts:75-95 | with no parameters, every returned setting is its default, the sizes rendered from value and unit |
| ChatSearchParams.IgnoresLaterAndForeignParams | src/views/Chat/useChatSearchParams.ts:4-95 | appending pairs whose names are no setting, or are settings already given, changes none of the settings |

## Left out

- Sockets, timers, hooks and promise microtasks (`useWebSocket`, `new WebSocket`, `setTimeout`, `setInterval`) are abstract events and logged effects. The event handler's `await` on the sender lookup splits a call into a start step and a resume step, and other events may run between them. Whether a temporary socket can be opened is a boolean parameter.
- REST fetchers and their schema parsing are oracles that return an option: user information, the 7TV, BetterTTV and FrankerFaceZ emote fetchers, `fetchSevenTVEmote`, and the fetch halves of `fetchCheers` and `fetchBadges`.
- Logging, Sentry and the `console` output are not modelled. Caught errors leave no effect.
- The `useWebSocket` option `reconnectAttempts: 50` (src/TwitchWebSocketClient.tsx:54) is not modelled: the attempt count lives inside the hook library, and the model keeps only the `shouldReconnect` answer.
- A primary frame that is not JSON re-arms the watchdog and is then dropped. In the source, `JSON.parse` (src/TwitchWebSocketClient.tsx:204) throws out of the effect uncaught, which the model does not capture; the temporary socket's handler catches the same error.
- TwitchWebSocketClient.EventSubClient.HandlePrimaryWelcome: as corrected, the `Subscribe` effect it logs, like `PrimaryStep`'s, names the welcome's session id; the source sends the user id in that place (first row of Findings, `AsWrittenWelcomeSendsUserId`).
- Filters.RuleBodyRenders: uses the corrected wildcard rewrite, one character at a time; the source's placeholder rewrite (src/utils/filters.ts:33-42) differs for wildcard patterns that contain `__Q__` or `__STAR__` (fourth row of Findings).
- Filters.BuildFilterRegex: compiles with the corrected wildcard rewrite, so it differs from the source for wildcard patterns that contain `__Q__` or `__STAR__`.
- Filters.FilterRegexRenders: states the rendering of the corrected wildcard rewrite, not of the placeholder rewrite, for wildcard patterns that contain `__Q__` or `__STAR__`.
- Filters.FilterAdmits: the admitted names are those of the corrected compiler; as written, a wildcard pattern `__Q__` excludes every one-character name (`PlaceholderInPatternAsWritten`).
- TextStroke.KeywordWins: the colour is the value with the match cut out; the source's `replace` removes the first occurrence of the matched text, so for `mediumblue medium` the text `blue medium` goes to the colour normaliser (fifth row of Findings). `AsWrittenAgrees` shows the two agree when the matched text does not occur earlier.
- TextStroke.LengthWidth: the colour is the value with the length cut out at the match; the source's `replace` (src/views/Main/TextStrokePicker/TextStrokeEditor.tsx:81) removes the first occurrence, so `a1px 1px` gives the colour `a 1px` where the model gives `a1px`.
- As written, the `utf8Data` gate of both push clients lets no browser `MessageEvent` through, so neither message handler ever runs (last but one row of Findings). The client classes' `OnMessage` and the 7TV `MessageStep` model the evidently intended handlers, from the parsed payload on. `JSON.parse` is a function parameter there, and a malformed frame, which makes it throw, is not modelled.
- The 7TV backoff jitter (`Math.random`, floating point) is an integer parameter in permille, within -200 to 200. Only the exponential cap and the bounds are exact.
- JSON numbers are `real`. JavaScript's ordering of integer-like object keys before other keys is not modelled: tables keep plain insertion order.
- Raw casts of parsed JSON to typed records (`as EventsubEvent` and the like) are modelled as field reads from a `Json` value. A missing field reads as absent.
- Case mapping (`toLowerCase`, the `i` flag) and the `\s` class cover ASCII only. Strings are sequences of characters, not UTF-16 code units.
- `hasOwnProperty.ts` is not part of this model. Prototype-chain lookups on tables are not modelled.
- Cheer `min_bits` is a natural number. FrankerFaceZ widths, heights and ids are unbounded integers.
- BetterTTV modifier words and their flags are one map. Twemoji, the Unicode-class split and the 7TV and FrankerFaceZ modifier-flag decoders are function parameters.
- The `RegExp` engine is replaced by the model's own matcher over the atoms the filter compiler emits. The compiled pattern strings are modelled as the source builds them, except for the wildcard rewrite, which follows the corrected definition.
- `btoa`, `atob`, `JSON.stringify` and `JSON.parse` are function parameters of the filter URL codec.
- The canvas colour normaliser `normalizeColorToHex` is a function parameter.
- `parseRgbColor`'s alpha is kept as its text, because it is a float.
- `Number(...)` is a function parameter (`toNumber`) with a `real` result.
- `useUnitValue` and React effect ordering and commit timing are not modelled.
- `chatSearchParamsMap.ts` is not part of this model: parameter names are a function parameter.
- The boolean defaults that `useChatSearchParams` reads are absent from `constants.ts`. The model's settings use the values the hook's comments give (last row of Findings).
- `URLSearchParams` decoding of the query string is not modelled: parameters arrive already decoded.
- Size settings take natural-number defaults. The fractional preset `fontSizeValue` (0.75, 1.25) is not modelled.
- The `\s*,\s*` split of shadow lists is modelled as a split at commas followed by a trim of each piece.
- ShadowStacker.Stacker.Move: requires `idx` on the list, because every caller passes the index of a shown entry. An out-of-range target is modelled as in the source.
- LoadEmotes.RemoveBetterTTVEmote: drops every name that carries the id, through the store's `removeChatEmote`; the evidently intended `find` then `delete` (src/loadEmotes.ts:155-158) would drop only the first such name, so the two differ when several names share an id.
- FilterEditor.UpdateRule: requires `idx` on the list, because every caller passes the index of a shown rule.
- ShadowCommon.ParseBuildRoundTrip: the round trip is proved only for parts that are plain words and do not start with a colour.
- ShadowCommon.RgbRoundTrip: the round trip is proved only for `rgb(r, g, b)` with single spaces and one to three digits per channel.
- TextStroke.StrokeRoundTrip: the round trip is proved only for keyword and px widths and a `#rrggbbaa` colour that the normaliser keeps.
- The test lemmas for the filter cases name their rules through zero-argument functions (`FooRule`, `AliceRule` and others), which are equal to the literal rules.

## Findings

| source | as written | input that shows it | evidently intended | confidence | as-written member | corrected member |
|---|---|---|---|---|---|---|
| src/TwitchWebSocketClient.tsx:228 | `subscribeToChat(broadcasterId, userId, sessionId)` passes three arguments to a two-parameter function. The user id is sent as the session id. | a welcome for session `s` with user `u`, where `u` differs from `s` | both subscriptions carry the session id of the welcome | not executed | TwitchWebSocketClient.AsWrittenSubscribesWrongSession | TwitchWebSocketClient.WelcomeSubscribesOwnSession |
| src/handlers/twitch/helix/fetchCheers.ts:54-59 | the saved cheer record has no `prefix`, while `findChatCheer` reads `cheer.prefix.toLowerCase()` | any cheermote rendered once one cheer is saved: a `TypeError` is thrown | the record carries its prefix, and a cheer whose bits reach a saved tier is found | not executed | FetchCheers.FindChatCheerAsWrittenThrows | ChatImageRenderer.SavedCheerFound |
| src/loadEmotes.ts:153-159 | `removeBetterTTVEmote` searches a fresh empty record, so it never removes anything | a BetterTTV `emote_delete` for an emote that was just added: the emote stays | the emote is removed from the shared table, as `RemoveAfterAddEmote` proves; the corrected member drops every name that carries the id, as the store's `removeChatEmote` does, where `find` then `delete` would drop only the first such name (the two agree when one name carries the id) | not executed | LoadEmotes.BetterTTVDeleteIsLost | LoadEmotes.RemoveBetterTTVEmote |
| src/utils/filters.ts:33-42 | the wildcard rewrite uses placeholder strings, then replaces every occurrence, including occurrences the user typed | wildcard pattern `__Q__`: it compiles to `^.$` and excludes every one-character name | `__Q__` matches only the literal name `__Q__` | not executed | Filters.PlaceholderInPatternAsWritten | Filters.PlaceholderInPatternCorrected |
| src/views/Main/TextStrokePicker/TextStrokeEditor.tsx:76 | `replace(kwMatch[0], '')` removes the first occurrence of the matched text, not the match | `mediumblue medium`: the text `blue medium` goes to the colour normaliser; a canvas rejects it and keeps the `#000` set before (line 101), so the stroke turns black, `#000000ff` | width `medium`, and `mediumblue` given to the normaliser | not executed | TextStroke.ColorFirstAsWritten | TextStroke.ColorFirstCorrected |
| src/handlers/sevenTV/sevenTVWebsocket.ts:217 | both push clients handle a message only when the event has a `utf8Data` property (also src/handlers/bttv/betterTTVWebsocket.ts:49), which the frames of node's `websocket` package carry, but the sockets are browser `WebSocket`s (lines 137 and 11), whose `MessageEvent` has `data` instead | any 7TV hello or dispatch, any BetterTTV `emote_create` or `emote_delete`: nothing happens, the emote set is never subscribed to and no emote is added or removed | the handlers read the frame's `data` | not executed | SevenTVWebsocket.BrowserMessageIgnoredAsWritten | SevenTVWebsocket.SevenTVClient.OnMessage |
| src/views/Chat/useChatSearchParams.ts:8 | the flags read `DEFAULT_CHAT_SETTINGS_VALUES.animatedEntry` and the like, which `src/constants.ts` does not define, so the fallback is `undefined` | an empty query: entry animation, avatars, borders and name aliases are all off | they are on unless their parameter is `false`, as the comments say (also lines 44, 47, 71) | not executed | ChatSearchParams.OnFlagsNeverOnAsWritten | ChatSearchParams.OnFlagsOffOnlyOnFalse |
