/**
 * The records the overlay keeps in its shared tables: emotes from every
 * provider, chat badges, cheer tiers and Twitch user information.
 */
module ChatTypes {
  import opened Wrappers

  datatype EmoteOrigin = SevenTV | BetterTTV | FrankerFaceZ | Twitch | Emoji

  /** One renderable emote. Width and height are `null` when the provider does not give them. */
  datatype ChatEmote = ChatEmote(
    origin: EmoteOrigin,
    src: string,
    srcSet: Option<string>,
    width: Option<int>,
    height: Option<int>,
    modifier: bool,
    hidden: bool,
    modifierFlags: int,
    id: string,
    name: string)

  datatype ChatBadge = ChatBadge(name: string, url: string)

  /**
   * One cheer tier. The renderer matches a cheermote against `prefix`, so the
   * record carries it (see the cheer catalogue builder for the record as the
   * source writes it, without this field).
   */
  datatype ChatCheer = ChatCheer(name: string, prefix: string, url: string, color: string, minBits: int)

  /** A Twitch user as the Helix users endpoint describes one. */
  datatype UserInformation = UserInformation(
    broadcasterType: string,
    createdAt: string,
    description: string,
    displayName: string,
    id: string,
    login: string,
    offlineImageUrl: string,
    profileImageUrl: string,
    userType: string,
    viewCount: int)
}
