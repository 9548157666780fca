/**
 * What the two Helix catalogue fetchers (cheermotes and chat badges) share:
 * the choice between the global and the channel catalogue, and the
 * authenticated GET they send.
 */
module Helix {
  import opened Json
  import opened EventSubscribe

  /** Whose catalogue to fetch. */
  datatype Scope = Global | Channel

  /** A GET carrying the application's client id and the user's token. */
  function HelixGet(url: string, clientId: string, accessToken: string): (r: Request)
    ensures r.httpMethod == "GET" && r.url == url && r.body == JNull
    ensures r.headers == [Header("Client-Id", clientId), Header("Authorization", "Bearer " + accessToken)]
  {
    Request("GET", url, [Header("Client-Id", clientId), Header("Authorization", "Bearer " + accessToken)], JNull)
  }
}
