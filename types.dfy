/** Identifiers and the records the bot keeps per guild. Every identifier is a
    platform snowflake held as a string, as in the bot's JSON stores. */
module Types {

  datatype Option<T> = None | Some(value: T)

  type GuildId = string
  type ChannelId = string
  type RoleId = string
  type UserId = string
  type MessageId = string

  /** The serialized panel embed, stored as-is and re-applied on resync. */
  type EmbedSnapshot = string

  /** One entry of the config store: where logs go and which role is granted. */
  datatype GuildConfig = GuildConfig(logChannel: ChannelId, role: RoleId)

  /** One entry of the embed store: the channel holding the panel message, the
      embed it shows and the message's id (the empty string when unset). */
  datatype PanelRecord = PanelRecord(embedChannel: ChannelId, embed: EmbedSnapshot, embedId: MessageId)
}
