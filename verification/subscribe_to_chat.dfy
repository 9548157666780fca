/**
 * Subscribing a session to a channel's chat: two subscription requests,
 * chat messages first and message deletions second, each awaited before
 * the next. A failing request is caught and logged inside the request
 * sender, so the second request is sent whatever became of the first.
 */
module SubscribeToChat {
  import opened Wrappers
  import opened Json
  import opened EventSubscribe
  import Store

  /** Both subscriptions are scoped to the broadcaster, as broadcaster and as reading user. */
  function ChatCondition(broadcasterId: string): map<string, string> {
    map["broadcaster_user_id" := broadcasterId, "user_id" := broadcasterId]
  }

  /** The requests `subscribeToChat(broadcasterId, sessionId)` sends, in order. */
  function ChatSubscriptions(clientId: string, accessToken: string, broadcasterId: string, sessionId: string): seq<Request> {
    [SubscriptionRequest(clientId, accessToken, sessionId, "channel.chat.message", ChatCondition(broadcasterId)),
     SubscriptionRequest(clientId, accessToken, sessionId, "channel.chat.message_delete", ChatCondition(broadcasterId))]
  }

  /**
   * Exactly two requests, messages then deletions, both version "1", both with
   * the broadcaster as `broadcaster_user_id` and `user_id`, both for the session given.
   */
  lemma ChatSubscriptionsContent(clientId: string, accessToken: string, broadcasterId: string, sessionId: string)
    ensures var rs := ChatSubscriptions(clientId, accessToken, broadcasterId, sessionId);
      |rs| == 2 &&
      ReadBody(rs[0].body) == Some(Subscription("channel.chat.message", "1", ChatCondition(broadcasterId), sessionId)) &&
      ReadBody(rs[1].body) == Some(Subscription("channel.chat.message_delete", "1", ChatCondition(broadcasterId), sessionId))
  {
    BodyRoundTrip(sessionId, "channel.chat.message", ChatCondition(broadcasterId), "1");
    BodyRoundTrip(sessionId, "channel.chat.message_delete", ChatCondition(broadcasterId), "1");
  }

  /** The requests sent so far, in the order they were sent. */
  class RequestLog {
    var sent: seq<Request>

    constructor ()
      ensures sent == []
    {
      sent := [];
    }

    /** `eventSubscribe`: sends one request built from the current client id and stored token. */
    method EventSubscribe(store: Store.ChatStore, persisted: Store.PersistedStore,
                          sessionId: string, subscriptionType: string, condition: map<string, string>)
      modifies this
      ensures sent == old(sent) + [SubscriptionRequest(store.clientId, persisted.accessToken, sessionId, subscriptionType, condition)]
    {
      sent := sent + [SubscriptionRequest(store.clientId, persisted.accessToken, sessionId, subscriptionType, condition)];
    }

    /** `subscribeToChat`: the message subscription, then the deletion subscription. */
    method SubscribeToChat(store: Store.ChatStore, persisted: Store.PersistedStore, broadcasterId: string, sessionId: string)
      modifies this
      ensures sent == old(sent) + ChatSubscriptions(store.clientId, persisted.accessToken, broadcasterId, sessionId)
    {
      EventSubscribe(store, persisted, sessionId, "channel.chat.message", ChatCondition(broadcasterId));
      EventSubscribe(store, persisted, sessionId, "channel.chat.message_delete", ChatCondition(broadcasterId));
    }
  }
}
