/** Identities and the per-message execution context that every connector
    hands to the command handler. */
module Platform {
  import opened Wrappers

  /** Who sent a message, per platform; compared by variant and payload. */
  datatype UserIdentifier =
    | TwitchID(twitchId: string)
    | DiscordID(discordId: string)
    | TelegramId(telegramId: nat)
    | IrcName(ircName: string)
    | IpAddr(addr: string)   // the address in its textual form

  /** Where a message was posted.  Only the Twitch variant is spelled out; any
      other platform is described by its platform name and optional channel
      string, and `Anonymous` has neither. */
  datatype ChannelIdentifier =
    | TwitchChannelName(login: string)
    | PlatformChannel(platform: string, channel: Option<string>)
    | Anonymous
  {
    /** `get_platform_name`. */
    function PlatformName(): Option<string> {
      match this
      case TwitchChannelName(_) => Some("twitch")
      case PlatformChannel(p, _) => Some(p)
      case Anonymous => None
    }

    /** `get_channel`: an identifier with a channel string always names its platform. */
    function ChannelName(): (r: Option<string>)
      ensures r.Some? ==> PlatformName().Some?
    {
      match this
      case TwitchChannelName(login) => Some(login)
      case PlatformChannel(_, c) => c
      case Anonymous => None
    }
  }

  datatype Permissions = Default | ChannelMod

  /** Built per inbound message by the connector and never stored. */
  datatype ExecutionContext = ExecutionContext(channel: ChannelIdentifier, permissions: Permissions)
}
