/** The Twitch connector's message path: a chat message that starts with the
    command prefix has the prefix removed, is given a context built from the
    channel and the sender's badges, and is handed to the command handler;
    a reply is sent only when the handler produced one. */
module Twitch {
  import opened Wrappers
  import opened Platform
  import opened Models
  import opened Tables
  import Text
  import Store
  import CommandHandler

  /** The parts of a `PRIVMSG` the connector reads. */
  datatype Privmsg = Privmsg(channelLogin: string, senderId: string, messageText: string, badges: seq<string>)

  /** A reply to a message, as `reply_to_privmsg` would send it. */
  datatype Reply = Reply(text: string, parent: Privmsg)

  /** `str::strip_prefix`: the text after the prefix, when the text starts with it. */
  function StripPrefix(text: string, prefix: string): (r: Option<string>)
    ensures r.Some? <==> prefix <= text
    ensures r.Some? ==> prefix + r.value == text
  {
    if prefix <= text then Some(text[|prefix|..]) else None
  }

  /** The text comes back after its prefix is put in front of it. */
  lemma StripPrefixOfPrefixed(prefix: string, rest: string)
    ensures StripPrefix(prefix + rest, prefix) == Some(rest)
  {
    assert prefix <= prefix + rest;
    assert (prefix + rest)[|prefix|..] == rest;
  }

  /** A moderator or broadcaster badge makes the sender a channel moderator;
      any other set of badges leaves the default permissions. */
  function PermissionsOf(badges: seq<string>): (p: Permissions)
    ensures p == ChannelMod <==> "moderator" in badges || "broadcaster" in badges
    ensures p == Default <==> "moderator" !in badges && "broadcaster" !in badges
  {
    if "moderator" in badges || "broadcaster" in badges then ChannelMod else Default
  }

  /** Extra badges never take permissions away. */
  lemma MoreBadgesNoFewerPermissions(badges: seq<string>, more: seq<string>)
    requires PermissionsOf(badges) == ChannelMod
    ensures PermissionsOf(badges + more) == ChannelMod
  {
    if "moderator" in badges {
      var k :| 0 <= k < |badges| && badges[k] == "moderator";
      assert (badges + more)[k] == "moderator";
    } else {
      var k :| 0 <= k < |badges| && badges[k] == "broadcaster";
      assert (badges + more)[k] == "broadcaster";
    }
  }

  /** The context of a message: its channel by login name, and the
      permissions its badges give.  A Twitch channel always has a platform
      name and a channel name, so the store never panics on it. */
  function ContextOf(pm: Privmsg): (ctx: ExecutionContext)
    ensures ctx.channel.PlatformName() == Some("twitch")
    ensures ctx.channel.ChannelName() == Some(pm.channelLogin)
    ensures ctx.permissions == PermissionsOf(pm.badges)
  {
    ExecutionContext(TwitchChannelName(pm.channelLogin), PermissionsOf(pm.badges))
  }

  /** `get_user_identifier`: the sender's Twitch id; a user created for it
      has that id in the Twitch column. */
  function GetUserIdentifier(pm: Privmsg): (u: UserIdentifier)
    ensures ColumnOf(u) == TwitchColumn && ColumnText(u) == pm.senderId
    ensures NewUser(0, u).twitchId == Some(pm.senderId)
  {
    TwitchID(pm.senderId)
  }

  /** `get_text`. */
  function GetText(pm: Privmsg): (t: string)
    ensures t == pm.messageText
  {
    pm.messageText
  }

  /** What one message gets on tables `t`: nothing without the prefix,
      otherwise the handler's answer to the stripped text, sent in reply to
      the message with its text stripped. */
  function PrivmsgOutcome(t: SqlTables, pm: Privmsg, prefix: string, uptimeSecs: nat): Outcome<Option<Reply>>
    requires ChannelsWellFormed(t.channels) && CommandsKeyed(t.commands)
  {
    match StripPrefix(pm.messageText, prefix)
    case None => Returned(None)
    case Some(rest) =>
      var message := pm.(messageText := rest);
      match CommandHandler.MessageOutcome(t, rest, GetUserIdentifier(message), ContextOf(pm), uptimeSecs)
      case Panicked(reason) => Panicked(reason)
      case Returned(None) => Returned(None)
      case Returned(Some(text)) => Returned(Some(Reply(text, message)))
  }

  function TablesAfterPrivmsg(t: SqlTables, pm: Privmsg, prefix: string): SqlTables
    requires ChannelsWellFormed(t.channels)
  {
    match StripPrefix(pm.messageText, prefix)
    case None => t
    case Some(rest) => CommandHandler.TablesAfterMessage(t, rest, ContextOf(pm))
  }

  function RedisAfterPrivmsg(t: SqlTables, log: seq<Store.RedisOp>, pm: Privmsg, prefix: string): seq<Store.RedisOp> {
    match StripPrefix(pm.messageText, prefix)
    case None => log
    case Some(rest) => CommandHandler.RedisAfterMessage(t, log, rest, ContextOf(pm))
  }

  /** A Twitch message never makes the handler panic: its context always
      names a platform. */
  lemma PrivmsgNeverPanics(t: SqlTables, pm: Privmsg, prefix: string, uptimeSecs: nat)
    requires WellFormed(t)
    ensures PrivmsgOutcome(t, pm, prefix, uptimeSecs).Returned?
  {
    if prefix <= pm.messageText {
      var rest := pm.messageText[|prefix|..];
      CommandHandler.MessagePanicsOnlyWithoutPlatform(t, rest, GetUserIdentifier(pm.(messageText := rest)), ContextOf(pm), uptimeSecs);
    }
  }

  /** One incoming message: nothing happens without the prefix; otherwise
      the stripped message goes to the handler, and its reply, if any, is
      sent in reply to the message. */
  method HandlePrivmsg(handler: CommandHandler.Handler, pm: Privmsg, prefix: string, uptimeSecs: nat)
    returns (r: Outcome<Option<Reply>>)
    requires handler.db.Valid()
    modifies handler.db
    ensures handler.db.Valid()
    ensures r == PrivmsgOutcome(old(handler.db.sql), pm, prefix, uptimeSecs)
    ensures handler.db.sql == TablesAfterPrivmsg(old(handler.db.sql), pm, prefix)
    ensures handler.db.redis == RedisAfterPrivmsg(old(handler.db.sql), old(handler.db.redis), pm, prefix)
    ensures !(prefix <= pm.messageText) ==> r == Returned(None) && handler.db.sql == old(handler.db.sql)
    ensures r.Returned? && r.value.Some? ==>
      prefix <= pm.messageText && prefix + r.value.value.parent.messageText == pm.messageText &&
      r.value.value.parent.channelLogin == pm.channelLogin && r.value.value.parent.senderId == pm.senderId
    ensures prefix <= pm.messageText && Text.AllWhitespace(pm.messageText[|prefix|..]) ==>
      r == Returned(Some(Reply(CommandHandler.EmptyCommandReply, pm.(messageText := pm.messageText[|prefix|..]))))
    ensures prefix <= pm.messageText && CommandHandler.SplitCommand(pm.messageText[|prefix|..]).Some? ==>
      var (command, args) := CommandHandler.SplitCommand(pm.messageText[|prefix|..]).value;
      CommandHandler.RouteOf(command, args).StoredRoute? &&
      CommandLookup(old(handler.db.sql), ContextOf(pm).channel, command).None? ==>
        r == Returned(None) && handler.db.sql == old(handler.db.sql)
  {
    var stripped := StripPrefix(pm.messageText, prefix);
    if stripped.None? {
      return Returned(None);
    }
    var message := pm.(messageText := stripped.value);
    var context := ContextOf(pm);
    var response := handler.HandleCommandMessage(GetText(message), GetUserIdentifier(message), context, uptimeSecs);
    match response {
      case Panicked(reason) => r := Panicked(reason);
      case Returned(None) => r := Returned(None);
      case Returned(Some(text)) => r := Returned(Some(Reply(text, message)));
    }
  }
}
