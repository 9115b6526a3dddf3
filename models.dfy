/** The rows of the relational store and the errors the store reports. */
module Models {
  import opened Wrappers
  import opened Platform
  import Text

  /** A row of `users`: one optional column per kind of identifier. */
  datatype User = User(
    id: nat,
    twitchId: Option<string>,
    discordId: Option<string>,
    ircName: Option<string>,
    telegramId: Option<string>,
    localAddr: Option<string>)

  datatype IdentifierColumn = TwitchColumn | DiscordColumn | IrcColumn | TelegramColumn | AddressColumn

  /** The column an identifier of this kind is looked up in. */
  function ColumnOf(ident: UserIdentifier): IdentifierColumn {
    match ident
    case TwitchID(_) => TwitchColumn
    case DiscordID(_) => DiscordColumn
    case IrcName(_) => IrcColumn
    case TelegramId(_) => TelegramColumn
    case IpAddr(_) => AddressColumn
  }

  /** The text that column holds for the identifier (`to_string` for Telegram ids). */
  function ColumnText(ident: UserIdentifier): string {
    match ident
    case TwitchID(v) => v
    case DiscordID(v) => v
    case IrcName(v) => v
    case TelegramId(n) => Text.NatToString(n)
    case IpAddr(a) => a
  }

  function Column(u: User, c: IdentifierColumn): Option<string> {
    match c
    case TwitchColumn => u.twitchId
    case DiscordColumn => u.discordId
    case IrcColumn => u.ircName
    case TelegramColumn => u.telegramId
    case AddressColumn => u.localAddr
  }

  /** The filter `users::<column>.eq(Some(value))` that `get_user` builds. */
  predicate HasIdentifier(u: User, ident: UserIdentifier) {
    Column(u, ColumnOf(ident)) == Some(ColumnText(ident))
  }

  /** The row `get_or_create_user` inserts: only the identifier's own column is set. */
  function NewUser(id: nat, ident: UserIdentifier): (u: User)
    ensures u.id == id && HasIdentifier(u, ident)
    ensures forall c :: c != ColumnOf(ident) ==> Column(u, c) == None
  {
    var v := Some(ColumnText(ident));
    match ident
    case TwitchID(_) => User(id, v, None, None, None, None)
    case DiscordID(_) => User(id, None, v, None, None, None)
    case IrcName(_) => User(id, None, None, v, None, None)
    case TelegramId(_) => User(id, None, None, None, v, None)
    case IpAddr(_) => User(id, None, None, None, None, v)
  }

  /** `User::merge`, reduced to the union of identifiers: the kept user's
      column wins where both are set. */
  function MergeUser(user: User, other: User): (m: User)
    ensures m.id == user.id
    ensures forall ident :: HasIdentifier(user, ident) ==> HasIdentifier(m, ident)
    ensures forall ident :: HasIdentifier(other, ident) && Column(user, ColumnOf(ident)).None? ==> HasIdentifier(m, ident)
    ensures forall ident :: HasIdentifier(m, ident) ==> HasIdentifier(user, ident) || HasIdentifier(other, ident)
  {
    User(user.id,
         if user.twitchId.Some? then user.twitchId else other.twitchId,
         if user.discordId.Some? then user.discordId else other.discordId,
         if user.ircName.Some? then user.ircName else other.ircName,
         if user.telegramId.Some? then user.telegramId else other.telegramId,
         if user.localAddr.Some? then user.localAddr else other.localAddr)
  }

  /** A row of `channels`. */
  datatype Channel = Channel(id: nat, platform: string, channel: string)

  /** A row of `commands`; `(channelId, name)` is its unique key. */
  datatype Command = Command(channelId: nat, name: string, action: string, permissions: Option<string>, cooldown: nat)

  /** A row of `filters`. */
  datatype Filter = Filter(channelId: nat, regex: string, blockMessage: bool, replacement: Option<string>)

  /** A row of `web_sessions`. */
  datatype WebSession = WebSession(sessionId: string, userId: nat, username: string)

  /** A Twitch token; the two instants are already rendered as RFC 3339 text. */
  datatype UserAccessToken = UserAccessToken(
    accessToken: string, refreshToken: string, createdAt: string, expiresAt: Option<string>)

  /** The names a stored command may never take (`BUILTIN_COMMANDS`). */
  const BuiltinCommands: seq<string> :=
    ["ping", "commands", "cmd", "command", "addcmd", "debug", "delcmd", "merge", "showcmd", "checkcmd"]

  /** The store's errors the bot reacts to: an insert that breaks a unique key,
      and `InvalidValue`. */
  datatype DatabaseError = UniqueViolation | InvalidValue {
    /** A unique-key violation reads as a database error carrying the server's
        words; only `InvalidValue` reads `Invalid value`. */
    function Display(): (s: string)
      ensures UniqueViolation? ==> |s| >= 16 && s[..16] == "Database error: " && s[16..] == UniqueViolationMessage
      ensures s == "Invalid value" <==> InvalidValue?
    {
      match this
      case UniqueViolation => "Database error: " + UniqueViolationMessage
      case InvalidValue => "Invalid value"
    }
  }

  /** The MySQL server's text for a duplicate key (its exact words are the server's). */
  const UniqueViolationMessage := "Duplicate entry"
}
