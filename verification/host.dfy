/**
 * What the bots see of the chat host: opaque identifiers, presence states,
 * the external effects they ask for, and the Python exceptions their handlers
 * can end with.
 */
module Host {

  /** A Discord user id (in tutoring-bot.py, the member's `hash`). */
  type UserId = int
  type ChannelId = int
  type MessageId = int

  /** A member's presence; only the distinction offline / not offline matters to the bots. */
  datatype Status = Online | Idle | DoNotDisturb | Offline

  /** External effects requested from the host, in the order they are requested. */
  datatype Event =
    | ChannelCreated(owner: UserId, channel: ChannelId)
    | ChannelDeleted(channel: ChannelId)

  /**
   * The exception a handler ends with: a missing dictionary key, an index into
   * an empty list, an attribute not yet assigned, or an error raised by the host
   * itself (a failed channel deletion).
   */
  datatype PyError = KeyError | IndexError | AttributeError | HostError
}
