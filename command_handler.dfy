/** The command dispatcher: a chat line (with the prefix already removed) is
    split into a command word and arguments, routed to a builtin or to a
    stored command, and a stored command's action is expanded into the
    reply. */
module CommandHandler {
  import opened Wrappers
  import opened Platform
  import opened Models
  import opened Tables
  import Text
  import Store
  import Ping

  // ---------------------------------------------------------------- errors

  datatype InquiryError = MissingArgument(what: string) {
    /** The message names the missing argument after a fixed prefix, so the
        argument can be read back from it. */
    function Display(): (s: string)
      ensures |s| == 17 + |what| && s[..17] == "missing argument " && s[17..] == what
    {
      match this
      case MissingArgument(a) => "missing argument " + a
    }
  }

  /** Two inquiry errors read the same only when they are the same error. */
  lemma {:induction false} InquiryDisplayInjective(e: InquiryError, f: InquiryError)
    ensures e.Display() == f.Display() <==> e == f
  {
    if e.Display() == f.Display() {
      assert e.what == e.Display()[17..] == f.Display()[17..] == f.what;
    }
  }

  datatype CommandError =
    | MissingArgument(what: string)
    | InvalidArgument(what: string)
    | NoPermissions
    | DbError(error: DatabaseError)
    | InquiryFailure(inquiry: InquiryError)
  {
    function Display(): (s: string)
      ensures MissingArgument? ==> s == "missing argument: " + what
      ensures InvalidArgument? ==> s == "invalid argument: " + what
    {
      match this
      case MissingArgument(a) => "missing argument: " + a
      case InvalidArgument(a) => "invalid argument: " + a
      case NoPermissions => "you don't have the permissions to use this command"
      case DbError(e) => "database error: " + e.Display()
      case InquiryFailure(e) => "inquiry error: " + e.Display()
    }
  }

  /** What the user sees for the result of `run_command`: errors are shown,
      never passed on. */
  function ReplyOf(result: Result<Option<string>, CommandError>): (r: Option<string>)
    ensures result.Err? ==> r == Some("Error: " + result.error.Display())
    ensures result.Ok? ==> r == result.value
  {
    match result
    case Ok(reply) => reply
    case Err(e) => Some("Error: " + e.Display())
  }

  // ------------------------------------------------------------- splitting

  /** Splitting the command line as the code does: `split.next().unwrap()`
      on the whitespace tokens panics when the text is only whitespace. */
  function SplitAsWritten(text: string): Outcome<(string, seq<string>)>
    requires text != ""
  {
    var tokens := Text.Tokens(text);
    if tokens == [] then Panicked(UnwrapNone) else Returned((tokens[0], tokens[1..]))
  }

  /** A line of spaces gets past the emptiness check and panics. */
  lemma SpacesPanic()
    ensures SplitAsWritten(" ").Panicked?
  {
    Text.TokensEmptyIff(" ");
  }

  /** The split the rest of the model uses: a line with no token has no
      command, like the empty line. */
  function SplitCommand(text: string): (r: Option<(string, seq<string>)>)
    ensures r.None? <==> Text.AllWhitespace(text)
    ensures r.Some? ==> [r.value.0] + r.value.1 == Text.Tokens(text) && r.value.0 != [] && Text.NoWhitespace(r.value.0)
  {
    Text.TokensEmptyIff(text);
    var tokens := Text.Tokens(text);
    if tokens == [] then None else Some((tokens[0], tokens[1..]))
  }

  /** The split never panics, and agrees with the code wherever the code does not. */
  lemma SplitCommandAgrees(text: string)
    requires text != ""
    ensures SplitAsWritten(text).Panicked? <==> SplitCommand(text).None?
    ensures SplitAsWritten(text).Returned? ==> SplitCommand(text) == Some(SplitAsWritten(text).value)
  {
  }

  const EmptyCommandReply := "❗"

  // --------------------------------------------------------------- routing

  /** Where `run_command` sends a command word.  The fixed builtins come
      first; the two old `…cmd` spellings become `command` with a leading
      `add` or `remove`; any other word is looked up as a stored command. */
  datatype Route =
    | PingRoute
    | WhoAmIRoute
    | CmdRoute(command: string, args: seq<string>)
    | StoredRoute(name: string)

  function RouteOf(command: string, args: seq<string>): (r: Route)
    ensures r.StoredRoute? <==>
      command !in ["ping", "whoami", "id", "cmd", "command", "commands", "addcmd", "cmdadd", "delcmd", "cmddel"]
    ensures r.StoredRoute? ==> r.name == command
  {
    match command
    case "ping" => PingRoute
    case "whoami" => WhoAmIRoute
    case "id" => WhoAmIRoute
    case "cmd" => CmdRoute(command, args)
    case "command" => CmdRoute(command, args)
    case "commands" => CmdRoute(command, args)
    case "addcmd" => CmdRoute("command", ["add"] + args)
    case "cmdadd" => CmdRoute("command", ["add"] + args)
    case "delcmd" => CmdRoute("command", ["remove"] + args)
    case "cmddel" => CmdRoute("command", ["remove"] + args)
    case _ => StoredRoute(command)
  }

  /** The old spellings are `command` with the subcommand put in front of
      the arguments. */
  lemma AliasesAreCommand(args: seq<string>)
    ensures RouteOf("addcmd", args) == RouteOf("cmdadd", args) == RouteOf("command", ["add"] + args)
    ensures RouteOf("delcmd", args) == RouteOf("cmddel", args) == RouteOf("command", ["remove"] + args)
  {
  }

  // ------------------------------------------------------------- inquiries

  const DoSomething := "DO_SOMETHING"
  const DoSomethingReply := "did something with "

  /** `make_inquiry`: the inquiry name is what comes before the first `:`,
      the arguments are the other pieces. */
  function MakeInquiry(inquiry: string): (r: Result<Option<string>, InquiryError>)
    ensures r.Ok?
    ensures r.value.Some? <==> Text.SplitOn(inquiry, ':')[0] == DoSomething
  {
    var split := Text.SplitOn(inquiry, ':');
    if |split| == 0 then Err(InquiryError.MissingArgument("inquiry"))
    else if split[0] == DoSomething then Ok(Some(DoSomethingReply + Text.DebugStrList(split[1..])))
    else Ok(None)
  }

  /** `DO_SOMETHING:a:b…` answers with the `Debug` form of exactly the
      arguments written after it. */
  lemma DoSomethingEchoesArguments(args: seq<string>)
    requires forall i :: 0 <= i < |args| ==> ':' !in args[i]
    ensures MakeInquiry(Text.JoinWith([DoSomething] + args, ":")) == Ok(Some(DoSomethingReply + Text.DebugStrList(args)))
  {
    var parts := [DoSomething] + args;
    DoSomethingHasNoColon();
    forall i | 0 <= i < |parts| ensures ':' !in parts[i] {
      if i > 0 { assert parts[i] == args[i - 1]; }
    }
    Text.JoinSplit(parts, ':');
    var split := Text.SplitOn(Text.JoinWith(parts, ":"), ':');
    assert split == parts;
    assert split[0] == DoSomething && split[1..] == args;
  }

  lemma DoSomethingHasNoColon()
    ensures ':' !in DoSomething
  {
  }

  /** What an inquiry puts into the response (`unwrap_or_default`). */
  function InquiryReply(inquiry: string): string {
    MakeInquiry(inquiry).value.GetOr("")
  }

  // --------------------------------------------------------------- actions

  /** Where an inquiry that starts at the beginning of `s` ends: at the first
      space, or at the end of the text. */
  function InquiryEnd(s: string): (e: nat)
    ensures e <= |s|
    ensures forall k :: 0 <= k < e ==> s[k] != ' '
    ensures e < |s| ==> s[e] == ' '
  {
    if s == [] || s[0] == ' ' then 0 else 1 + InquiryEnd(s[1..])
  }

  lemma {:induction false} InquiryEndUnique(s: string, j: nat)
    requires j <= |s| && (forall k :: 0 <= k < j ==> s[k] != ' ') && (j < |s| ==> s[j] == ' ')
    ensures InquiryEnd(s) == j
  {
    if j > 0 {
      assert s[0] != ' ';
      assert forall k :: 0 <= k < j - 1 ==> s[1..][k] == s[k + 1];
      InquiryEndUnique(s[1..], j - 1);
    }
  }

  /** The response `execute_command_action` builds: characters are copied,
      and `$` starts an inquiry which runs to the next space (consumed) or to
      the end, and is replaced by its reply followed by one space. */
  function Expand(action: string): string
    decreases |action|
  {
    if action == [] then []
    else if action[0] != '$' then [action[0]] + Expand(action[1..])
    else
      var s := action[1..];
      var e := InquiryEnd(s);
      var rest := if e < |s| then s[e + 1..] else [];
      InquiryReply(s[..e]) + " " + Expand(rest)
  }

  /** Text without `$` is copied as it is, and what follows is expanded on its own. */
  lemma {:induction false} ExpandLiteral(literal: string, rest: string)
    requires '$' !in literal
    ensures Expand(literal + rest) == literal + Expand(rest)
  {
    if literal != [] {
      assert (literal + rest)[1..] == literal[1..] + rest;
      assert literal[0] in literal;
      ExpandLiteral(literal[1..], rest);
    } else {
      assert literal + rest == rest;
    }
  }

  /** An inquiry followed by a space and more text: the reply, one space,
      then the rest of the action. */
  lemma ExpandInquiry(inquiry: string, rest: string)
    requires ' ' !in inquiry
    ensures Expand("$" + inquiry + " " + rest) == InquiryReply(inquiry) + " " + Expand(rest)
    ensures Expand("$" + inquiry) == InquiryReply(inquiry) + " "
  {
    var s := inquiry + " " + rest;
    assert ("$" + inquiry + " " + rest)[1..] == s;
    assert forall k :: 0 <= k < |inquiry| ==> s[k] == inquiry[k] && inquiry[k] in inquiry;
    InquiryEndUnique(s, |inquiry|);
    assert s[..|inquiry|] == inquiry && s[|inquiry| + 1..] == rest;
    assert ("$" + inquiry)[1..] == inquiry;
    assert forall k :: 0 <= k < |inquiry| ==> inquiry[k] in inquiry;
    InquiryEndUnique(inquiry, |inquiry|);
    assert inquiry[..|inquiry|] == inquiry;
  }

  /** The response is empty exactly when the action is: every `$` brings at
      least its space. */
  lemma {:induction false} ExpandEmptyIff(action: string)
    ensures Expand(action) == [] <==> action == []
  {
    if action != [] && action[0] == '$' {
      assert |InquiryReply(action[1..][..InquiryEnd(action[1..])]) + " "| > 0;
    }
  }

  /** An inquiry at the very end of an action still gets its space: when it
      is not `DO_SOMETHING`, the space is all that is left of it. */
  lemma UnansweredInquiryIsSpace(prefix: string, inquiry: string)
    requires '$' !in prefix && ' ' !in inquiry && Text.SplitOn(inquiry, ':')[0] != DoSomething
    ensures Expand(prefix + "$" + inquiry) == prefix + " "
  {
    assert prefix + "$" + inquiry == prefix + ("$" + inquiry);
    ExpandLiteral(prefix, "$" + inquiry);
    ExpandInquiry(inquiry, "");
  }

  /** `execute_command_action`: the scan over the characters of the action. */
  method ExecuteCommandAction(action: string) returns (r: Result<Option<string>, CommandError>)
    ensures r == Ok(if Expand(action) == [] then None else Some(Expand(action)))
    ensures r.Ok? && (r.value.None? <==> action == [])
  {
    var response := "";
    var i := 0;
    while i < |action|
      invariant 0 <= i <= |action|
      invariant response + Expand(action[i..]) == Expand(action)
      decreases |action| - i
    {
      var ch := action[i];
      if ch == '$' {
        var inquiry, stop := ReadInquiry(action, i + 1);
        InquiryStep(action, i + 1, stop);
        i := if stop < |action| then stop + 1 else stop;
        response := response + (InquiryReply(inquiry) + " ");
      } else {
        LiteralStep(action, i);
        response := response + [ch];
        i := i + 1;
      }
    }
    assert action[i..] == [];
    assert response == Expand(action);
    ExpandEmptyIff(action);
    r := Ok(if response == [] then None else Some(response));
  }

  /** The inner loop: the characters from `start` up to the next space or the end. */
  method ReadInquiry(action: string, start: nat) returns (inquiry: string, stop: nat)
    requires start <= |action|
    ensures start <= stop <= |action| && inquiry == action[start..stop]
    ensures forall k :: start <= k < stop ==> action[k] != ' '
    ensures stop < |action| ==> action[stop] == ' '
  {
    inquiry := "";
    stop := start;
    while stop < |action| && action[stop] != ' '
      invariant start <= stop <= |action|
      invariant inquiry == action[start..stop]
      invariant forall k :: start <= k < stop ==> action[k] != ' '
      decreases |action| - stop
    {
      inquiry := inquiry + [action[stop]];
      stop := stop + 1;
    }
  }

  /** The expansion at a `$` found by the scan. */
  lemma InquiryStep(action: string, start: nat, i: nat)
    requires 1 <= start <= i <= |action| && action[start - 1] == '$'
    requires forall k :: start <= k < i ==> action[k] != ' '
    requires i < |action| ==> action[i] == ' '
    ensures Expand(action[start - 1..]) ==
      (InquiryReply(action[start..i]) + " ") + Expand(action[if i < |action| then i + 1 else i..])
  {
    var a := action[start - 1..];
    var s := a[1..];
    assert s == action[start..];
    InquiryEndUnique(s, i - start);
    assert s[..i - start] == action[start..i];
    if i < |action| {
      assert s[i - start + 1..] == action[i + 1..];
    }
  }

  /** The expansion at a character the scan copies. */
  lemma LiteralStep(action: string, i: nat)
    requires i < |action| && action[i] != '$'
    ensures Expand(action[i..]) == [action[i]] + Expand(action[i + 1..])
  {
    assert action[i..][1..] == action[i + 1..];
  }

  // ------------------------------------------------------------------- cmd

  /** What `cmd` decides from its arguments and the caller's permissions,
      before it touches the store. */
  datatype CmdPlan =
    | ListCommands
    | Refuse(error: CommandError)
    | AddPlan(name: string, action: string)
    | RemovePlan(name: string)

  function PlanOf(command: string, args: seq<string>, permissions: Permissions): (p: CmdPlan)
    ensures args == [] ==> p == ListCommands
    ensures args != [] && permissions == Default ==> p == Refuse(NoPermissions)
    ensures p.AddPlan? ==>
      |args| >= 2 && args[0] in ["add", "create"] && p.name == args[1] &&
      p.action == Text.JoinWith(args[2..], " ") && p.action != ""
    ensures p.RemovePlan? ==> |args| >= 2 && args[0] in ["del", "delete", "remove"] && p.name == args[1]
    ensures args != [] && permissions == ChannelMod && args[0] !in ["add", "create", "del", "delete", "remove"] ==>
      p == Refuse(InvalidArgument(command))
    ensures |args| == 1 && permissions == ChannelMod && args[0] in ["add", "create", "del", "delete", "remove"] ==>
      p == Refuse(CommandError.MissingArgument("command name"))
  {
    if args == [] then ListCommands
    else if permissions == Default then Refuse(NoPermissions)
    else if args[0] in ["add", "create"] then
      if |args| < 2 then Refuse(CommandError.MissingArgument("command name"))
      else
        var action := Text.JoinWith(args[2..], " ");
        if action == "" then Refuse(CommandError.MissingArgument("command action")) else AddPlan(args[1], action)
    else if args[0] in ["del", "delete", "remove"] then
      if |args| < 2 then Refuse(CommandError.MissingArgument("command name")) else RemovePlan(args[1])
    else Refuse(InvalidArgument(command))
  }

  /** `add` needs a name and a non-empty action. */
  lemma AddNeedsNameAndAction(command: string, rest: seq<string>)
    ensures PlanOf(command, ["add"] + rest, ChannelMod) ==
      if rest == [] then Refuse(CommandError.MissingArgument("command name"))
      else if Text.JoinWith(rest[1..], " ") == "" then Refuse(CommandError.MissingArgument("command action"))
      else AddPlan(rest[0], Text.JoinWith(rest[1..], " "))
  {
    var args := ["add"] + rest;
    assert args[0] == "add";
    if rest != [] {
      assert args[1] == rest[0] && args[2..] == rest[1..];
    }
  }

  /** An action made of tokens is empty exactly when there are none: the
      words after the name are joined with single spaces. */
  lemma {:induction false} JoinTokensEmptyIff(words: seq<string>)
    requires forall i :: 0 <= i < |words| ==> words[i] != ""
    ensures Text.JoinWith(words, " ") == "" <==> words == []
  {
    if |words| >= 2 {
      assert Text.JoinWith(words, " ") == words[0] + " " + Text.JoinWith(words[1..], " ");
    }
  }

  const ListReply := "Command list"
  const AddedReply := "Command successfully added"
  const ExistsReply := "Command already exists"
  const RemovedReply := "Command succesfully removed"

  // --------------------------------------------------------------- handler

  function DebugPermissions(p: Permissions): string {
    match p
    case Default => "Default"
    case ChannelMod => "ChannelMod"
  }

  function DebugOption(o: Option<string>): string {
    match o
    case None => "None"
    case Some(s) => "Some(" + Text.DebugStr(s) + ")"
  }

  /** `{:?}` of the user lookup, fields in the order of the `users` columns. */
  function DebugUserLookup(u: Option<User>): string {
    match u
    case None => "Ok(None)"
    case Some(u) =>
      "Ok(Some(User { id: " + Text.NatToString(u.id) +
      ", twitch_id: " + DebugOption(u.twitchId) +
      ", discord_id: " + DebugOption(u.discordId) +
      ", irc_name: " + DebugOption(u.ircName) +
      ", telegram_id: " + DebugOption(u.telegramId) +
      ", local_addr: " + DebugOption(u.localAddr) + " }))"
  }

  // ------------------------------------------- what a command line does

  /** `cmd add`'s answer from the store's: a duplicate key is a reply, any
      other refusal an error. */
  function AddAnswer(commands: map<(nat, string), Command>, channelId: nat, name: string)
    : Result<Option<string>, CommandError>
  {
    if name in BuiltinCommands then Err(DbError(InvalidValue))
    else if (channelId, name) in commands then Ok(Some(ExistsReply))
    else Ok(Some(AddedReply))
  }

  /** `cmd remove`'s answer from the store's. */
  function RemoveAnswer(commands: map<(nat, string), Command>, channelId: nat, name: string)
    : Result<Option<string>, CommandError>
  {
    if (channelId, name) in commands then Ok(Some(RemovedReply)) else Err(DbError(InvalidValue))
  }

  /** The id of the context channel's row once `get_or_create_channel` has run. */
  function ChannelIdOf(t: SqlTables, channel: ChannelIdentifier): nat
    requires channel.PlatformName().Some?
  {
    CreatedChannelId(t.channels, channel.PlatformName().value, channel.ChannelName().GetOr(""))
  }

  /** `cmd add name …` in `channel`: without a platform the store's `unwrap` panics. */
  function AddOutcome(t: SqlTables, channel: ChannelIdentifier, name: string)
    : Outcome<Result<Option<string>, CommandError>>
  {
    if channel.PlatformName().None? then Panicked(UnwrapNone)
    else Returned(AddAnswer(t.commands, ChannelIdOf(t, channel), name))
  }

  /** The tables after `cmd add name action` in `channel`: the channel row is
      found or created, and the command is inserted when the answer is "added". */
  function TablesAfterAdd(t: SqlTables, channel: ChannelIdentifier, name: string, action: string): (t': SqlTables)
    requires ChannelsWellFormed(t.channels)
    ensures ChannelsWellFormed(t'.channels)
    ensures CommandsKeyed(t.commands) ==> CommandsKeyed(t'.commands)
  {
    match channel.PlatformName()
    case None => t
    case Some(platform) =>
      var id := ChannelIdOf(t, channel);
      t.(channels := ChannelsAfterCreate(t.channels, platform, channel.ChannelName().GetOr("")),
         commands := if AddAnswer(t.commands, id, name) == Ok(Some(AddedReply))
                     then t.commands[(id, name) := Command(id, name, action, None, 5)]
                     else t.commands)
  }

  function RemoveOutcome(t: SqlTables, channel: ChannelIdentifier, name: string)
    : Outcome<Result<Option<string>, CommandError>>
  {
    if channel.PlatformName().None? then Panicked(UnwrapNone)
    else Returned(RemoveAnswer(t.commands, ChannelIdOf(t, channel), name))
  }

  /** The tables after `cmd remove name` in `channel`: the channel row is found
      or created, and the key is gone. */
  function TablesAfterRemove(t: SqlTables, channel: ChannelIdentifier, name: string): (t': SqlTables)
    requires ChannelsWellFormed(t.channels)
    ensures ChannelsWellFormed(t'.channels)
    ensures CommandsKeyed(t.commands) ==> CommandsKeyed(t'.commands)
  {
    match channel.PlatformName()
    case None => t
    case Some(platform) =>
      t.(channels := ChannelsAfterCreate(t.channels, platform, channel.ChannelName().GetOr("")),
         commands := t.commands - {(ChannelIdOf(t, channel), name)})
  }

  function CmdOutcome(t: SqlTables, command: string, args: seq<string>, ctx: ExecutionContext)
    : Outcome<Result<Option<string>, CommandError>>
  {
    match PlanOf(command, args, ctx.permissions)
    case ListCommands => Returned(Ok(Some(ListReply)))
    case Refuse(e) => Returned(Err(e))
    case AddPlan(name, _) => AddOutcome(t, ctx.channel, name)
    case RemovePlan(name) => RemoveOutcome(t, ctx.channel, name)
  }

  function TablesAfterCmd(t: SqlTables, command: string, args: seq<string>, ctx: ExecutionContext): SqlTables
    requires ChannelsWellFormed(t.channels)
  {
    match PlanOf(command, args, ctx.permissions)
    case AddPlan(name, action) => TablesAfterAdd(t, ctx.channel, name, action)
    case RemovePlan(name) => TablesAfterRemove(t, ctx.channel, name)
    case _ => t
  }

  /** The handler's own `ping` reply: the uptime only. */
  function PingText(uptimeSecs: nat): string {
    "Pong! Uptime " + Ping.UptimeText(uptimeSecs)
  }

  /** `whoami`: the `{:?}` of the user lookup and of the permissions. */
  function WhoAmIText(users: seq<User>, user: UserIdentifier, permissions: Permissions): string {
    DebugUserLookup(FindUser(users, user)) + ", permissions: " + DebugPermissions(permissions)
  }

  /** A stored command answers with its expanded action, an empty expansion
      and a missing command with nothing. */
  function StoredAnswer(t: SqlTables, channel: ChannelIdentifier, name: string): Result<Option<string>, CommandError>
    requires ChannelsWellFormed(t.channels) && CommandsKeyed(t.commands)
  {
    match CommandLookup(t, channel, name)
    case None => Ok(None)
    case Some(cmd) => Ok(if Expand(cmd.action) == [] then None else Some(Expand(cmd.action)))
  }

  /** `run_command` on tables `t`. */
  function RunOutcome(t: SqlTables, command: string, args: seq<string>, user: UserIdentifier,
                      ctx: ExecutionContext, uptimeSecs: nat): Outcome<Result<Option<string>, CommandError>>
    requires ChannelsWellFormed(t.channels) && CommandsKeyed(t.commands)
  {
    match RouteOf(command, args)
    case PingRoute => Returned(Ok(Some(PingText(uptimeSecs))))
    case WhoAmIRoute => Returned(Ok(Some(WhoAmIText(t.users, user, ctx.permissions))))
    case CmdRoute(c, a) => CmdOutcome(t, c, a, ctx)
    case StoredRoute(name) => Returned(StoredAnswer(t, ctx.channel, name))
  }

  /** Only `cmd` writes to the tables. */
  function TablesAfterRun(t: SqlTables, command: string, args: seq<string>, ctx: ExecutionContext): SqlTables
    requires ChannelsWellFormed(t.channels)
  {
    match RouteOf(command, args)
    case CmdRoute(c, a) => TablesAfterCmd(t, c, a, ctx)
    case _ => t
  }

  /** `handle_command_message` on tables `t`, with the split that does not panic. */
  function MessageOutcome(t: SqlTables, text: string, user: UserIdentifier, ctx: ExecutionContext, uptimeSecs: nat)
    : Outcome<Option<string>>
    requires ChannelsWellFormed(t.channels) && CommandsKeyed(t.commands)
  {
    match SplitCommand(text)
    case None => Returned(Some(EmptyCommandReply))
    case Some((command, args)) =>
      match RunOutcome(t, command, args, user, ctx, uptimeSecs)
      case Panicked(reason) => Panicked(reason)
      case Returned(result) => Returned(ReplyOf(result))
  }

  function TablesAfterMessage(t: SqlTables, text: string, ctx: ExecutionContext): SqlTables
    requires ChannelsWellFormed(t.channels)
  {
    match SplitCommand(text)
    case None => t
    case Some((command, args)) => TablesAfterRun(t, command, args, ctx)
  }

  /** The Redis log after `cmd add` or `cmd remove` in `channel`: the
      channel's name joins its platform's set when the row is new. */
  function RedisAfterChannel(t: SqlTables, log: seq<Store.RedisOp>, channel: ChannelIdentifier): seq<Store.RedisOp> {
    match channel.PlatformName()
    case None => log
    case Some(platform) => Store.RedisAfterCreate(log, t.channels, platform, channel.ChannelName().GetOr(""))
  }

  /** Only `add` and `remove` reach `get_or_create_channel`. */
  function RedisAfterCmd(t: SqlTables, log: seq<Store.RedisOp>, command: string, args: seq<string>,
                         ctx: ExecutionContext): seq<Store.RedisOp>
  {
    match PlanOf(command, args, ctx.permissions)
    case AddPlan(_, _) => RedisAfterChannel(t, log, ctx.channel)
    case RemovePlan(_) => RedisAfterChannel(t, log, ctx.channel)
    case _ => log
  }

  function RedisAfterRun(t: SqlTables, log: seq<Store.RedisOp>, command: string, args: seq<string>,
                         ctx: ExecutionContext): seq<Store.RedisOp>
  {
    match RouteOf(command, args)
    case CmdRoute(c, a) => RedisAfterCmd(t, log, c, a, ctx)
    case _ => log
  }

  function RedisAfterMessage(t: SqlTables, log: seq<Store.RedisOp>, text: string, ctx: ExecutionContext)
    : seq<Store.RedisOp>
  {
    match SplitCommand(text)
    case None => log
    case Some((command, args)) => RedisAfterRun(t, log, command, args, ctx)
  }

  // ---------------------------------------------- properties of the above

  /** A command line sends Redis one `SADD` per channel row it creates, and
      nothing else. */
  lemma RedisFollowsNewChannels(t: SqlTables, log: seq<Store.RedisOp>, text: string, ctx: ExecutionContext)
    requires ChannelsWellFormed(t.channels)
    ensures log <= RedisAfterMessage(t, log, text, ctx)
    ensures |RedisAfterMessage(t, log, text, ctx)| - |log| ==
      |TablesAfterMessage(t, text, ctx).channels| - |t.channels|
    ensures |RedisAfterMessage(t, log, text, ctx)| > |log| ==>
      var p := ctx.channel.PlatformName().value;
      var name := ctx.channel.ChannelName().GetOr("");
      RedisAfterMessage(t, log, text, ctx) == log + [Store.SAdd(Store.ChannelSetKey(p), [name])] &&
      FindChannel(t.channels, p, name).None?
  {
  }


  /** The tables `cmd add` leaves keep what the store's tables keep. */
  lemma AddKeepsWellFormed(t: SqlTables, channel: ChannelIdentifier, name: string, action: string)
    requires WellFormed(t)
    ensures WellFormed(TablesAfterAdd(t, channel, name, action))
  {
  }

  /** A command that was added is what the channel's lookup finds. */
  lemma AddedIsFound(t: SqlTables, channel: ChannelIdentifier, name: string, action: string)
    requires WellFormed(t) && channel.ChannelName().Some?
    requires AddOutcome(t, channel, name) == Returned(Ok(Some(AddedReply)))
    ensures CommandLookup(TablesAfterAdd(t, channel, name, action), channel, name) ==
      Some(Command(ChannelIdOf(t, channel), name, action, None, 5))
  {
    var t' := TablesAfterAdd(t, channel, name, action);
    var c := Channel(ChannelIdOf(t, channel), channel.PlatformName().value, channel.ChannelName().value);
    AddKeepsWellFormed(t, channel, name, action);
    CommandLookupVia(t', channel, c, name);
  }

  /** Adding the same name again answers "already exists" and changes nothing. */
  lemma AddTwiceExists(t: SqlTables, channel: ChannelIdentifier, name: string, action: string, action2: string)
    requires WellFormed(t) && channel.PlatformName().Some?
    requires AddOutcome(t, channel, name) == Returned(Ok(Some(AddedReply)))
    ensures AddOutcome(TablesAfterAdd(t, channel, name, action), channel, name) == Returned(Ok(Some(ExistsReply)))
    ensures TablesAfterAdd(TablesAfterAdd(t, channel, name, action), channel, name, action2) ==
      TablesAfterAdd(t, channel, name, action)
  {
    var platform, cname := channel.PlatformName().value, channel.ChannelName().GetOr("");
    ChannelsAfterCreateIdempotent(t.channels, platform, cname);
  }

  /** Removing what was just added gives the command table back. */
  lemma AddThenRemoveRestores(t: SqlTables, channel: ChannelIdentifier, name: string, action: string)
    requires WellFormed(t) && channel.PlatformName().Some?
    requires AddOutcome(t, channel, name) == Returned(Ok(Some(AddedReply)))
    ensures RemoveOutcome(TablesAfterAdd(t, channel, name, action), channel, name) == Returned(Ok(Some(RemovedReply)))
    ensures TablesAfterRemove(TablesAfterAdd(t, channel, name, action), channel, name) ==
      TablesAfterAdd(t, channel, name, action).(commands := t.commands)
  {
    var platform, cname := channel.PlatformName().value, channel.ChannelName().GetOr("");
    var id := ChannelIdOf(t, channel);
    ChannelsAfterCreateIdempotent(t.channels, platform, cname);
    assert (id, name) !in t.commands;
    assert t.commands[(id, name) := Command(id, name, action, None, 5)] - {(id, name)} == t.commands;
  }

  /** A builtin name is refused with the store's error and inserts nothing;
      the reply reads `Error: database error: Invalid value`. */
  lemma BuiltinAddRefused(t: SqlTables, channel: ChannelIdentifier, name: string, action: string)
    requires ChannelsWellFormed(t.channels) && channel.PlatformName().Some? && name in BuiltinCommands
    ensures AddOutcome(t, channel, name) == Returned(Err(DbError(InvalidValue)))
    ensures ReplyOf(AddOutcome(t, channel, name).value) == Some("Error: database error: Invalid value")
    ensures TablesAfterAdd(t, channel, name, action).commands == t.commands
  {
    InvalidValueReply();
  }

  lemma InvalidValueReply()
    ensures ReplyOf(Err(DbError(InvalidValue))) == Some("Error: database error: Invalid value")
  {
    assert ReplyOf(Err(DbError(InvalidValue))) == Some("Error: " + ("database error: " + "Invalid value"));
    assert "Error: " + ("database error: " + "Invalid value") == "Error: database error: Invalid value";
  }

  /** A command line panics only when `cmd add` or `cmd remove` runs in a
      context without a platform. */
  lemma MessagePanicsOnlyWithoutPlatform(t: SqlTables, text: string, user: UserIdentifier, ctx: ExecutionContext, uptimeSecs: nat)
    requires WellFormed(t)
    ensures MessageOutcome(t, text, user, ctx, uptimeSecs).Panicked? ==>
      ctx.channel.PlatformName().None? && SplitCommand(text).Some? &&
      var route := RouteOf(SplitCommand(text).value.0, SplitCommand(text).value.1);
      route.CmdRoute? && (PlanOf(route.command, route.args, ctx.permissions).AddPlan? ||
                          PlanOf(route.command, route.args, ctx.permissions).RemovePlan?)
  {
  }

  /** Every command line the split accepts gets an answer or nothing, and
      only a stored command that is missing or expands to nothing answers nothing. */
  lemma SilentOnlyForStored(t: SqlTables, text: string, user: UserIdentifier, ctx: ExecutionContext, uptimeSecs: nat)
    requires WellFormed(t)
    ensures MessageOutcome(t, text, user, ctx, uptimeSecs) == Returned(None) ==>
      SplitCommand(text).Some? && RouteOf(SplitCommand(text).value.0, SplitCommand(text).value.1).StoredRoute?
  {
  }

  class Handler {
    const db: Store.Database

    constructor (db: Store.Database)
      ensures this.db == db
    {
      this.db := db;
    }

    /** The handler's own `ping`: the uptime only. */
    method PingReply(uptimeSecs: nat) returns (reply: string)
      ensures reply == PingText(uptimeSecs)
      ensures "Pong! Uptime " <= reply && |reply| > |"Pong! Uptime "|
    {
      var uptime := Ping.FormatUptime(uptimeSecs);
      reply := "Pong! Uptime " + uptime;
    }

    /** `cmd`: `add`/`create` and `del`/`delete`/`remove` for channel
        moderators; the arguments are taken one at a time. */
    method Cmd(command: string, args: seq<string>, ctx: ExecutionContext)
      returns (r: Outcome<Result<Option<string>, CommandError>>)
      requires db.Valid()
      modifies db
      ensures db.Valid()
      ensures r == CmdOutcome(old(db.sql), command, args, ctx)
      ensures db.sql == TablesAfterCmd(old(db.sql), command, args, ctx)
      ensures db.redis == RedisAfterCmd(old(db.sql), old(db.redis), command, args, ctx)
      ensures var plan := PlanOf(command, args, ctx.permissions);
        (plan.ListCommands? ==> r == Returned(Ok(Some(ListReply))) && db.sql == old(db.sql)) &&
        (plan.Refuse? ==> r == Returned(Err(plan.error)) && db.sql == old(db.sql)) &&
        (plan.AddPlan? || plan.RemovePlan? ==> (r.Panicked? <==> ctx.channel.PlatformName().None?))
      ensures var plan := PlanOf(command, args, ctx.permissions);
        plan.AddPlan? && r.Returned? ==>
          var ch := FindChannel(db.sql.channels, ctx.channel.PlatformName().value, ctx.channel.ChannelName().GetOr(""));
          ch.Some? &&
          r.value == (if plan.name in BuiltinCommands then Err(DbError(InvalidValue))
                      else if (ch.value.id, plan.name) in old(db.sql).commands then Ok(Some(ExistsReply))
                      else Ok(Some(AddedReply)))
      ensures var plan := PlanOf(command, args, ctx.permissions);
        plan.RemovePlan? && r.Returned? ==>
          var ch := FindChannel(db.sql.channels, ctx.channel.PlatformName().value, ctx.channel.ChannelName().GetOr(""));
          ch.Some? &&
          r.value == (if (ch.value.id, plan.name) in old(db.sql).commands then Ok(Some(RemovedReply))
                      else Err(DbError(InvalidValue)))
    {
      if |args| == 0 {
        return Returned(Ok(Some(ListReply)));
      }
      if ctx.permissions == Default {
        return Returned(Err(NoPermissions));
      }
      var next := 0;
      var sub := args[next];
      next := next + 1;
      if sub == "add" || sub == "create" {
        if next >= |args| {
          return Returned(Err(CommandError.MissingArgument("command name")));
        }
        var name := args[next];
        next := next + 1;
        var action := Text.JoinWith(args[next..], " ");
        if action == "" {
          return Returned(Err(CommandError.MissingArgument("command action")));
        }
        r := AddToChannel(ctx, name, action);
      } else if sub == "del" || sub == "delete" || sub == "remove" {
        if next >= |args| {
          return Returned(Err(CommandError.MissingArgument("command name")));
        }
        var name := args[next];
        r := RemoveFromChannel(ctx, name);
      } else {
        r := Returned(Err(InvalidArgument(command)));
      }
    }

    /** `cmd add`: the store's answer as the reply, a duplicate as the
        "already exists" text. */
    method AddToChannel(ctx: ExecutionContext, name: string, action: string)
      returns (r: Outcome<Result<Option<string>, CommandError>>)
      requires db.Valid()
      modifies db
      ensures db.Valid()
      ensures r == AddOutcome(old(db.sql), ctx.channel, name)
      ensures db.sql == TablesAfterAdd(old(db.sql), ctx.channel, name, action)
      ensures db.redis == RedisAfterChannel(old(db.sql), old(db.redis), ctx.channel)
      ensures r.Panicked? <==> ctx.channel.PlatformName().None?
      ensures r.Returned? ==>
        var ch := FindChannel(db.sql.channels, ctx.channel.PlatformName().value, ctx.channel.ChannelName().GetOr(""));
        ch.Some? &&
        r.value == (if name in BuiltinCommands then Err(DbError(InvalidValue))
                    else if (ch.value.id, name) in old(db.sql).commands then Ok(Some(ExistsReply))
                    else Ok(Some(AddedReply)))
    {
      var res := db.AddCommandToChannel(ctx.channel, name, action);
      match res {
        case Panicked(reason) => r := Panicked(reason);
        case Returned(Ok(_)) => r := Returned(Ok(Some(AddedReply)));
        case Returned(Err(UniqueViolation)) => r := Returned(Ok(Some(ExistsReply)));
        case Returned(Err(e)) => r := Returned(Err(DbError(e)));
      }
    }

    /** `cmd remove`: the store's answer as the reply. */
    method RemoveFromChannel(ctx: ExecutionContext, name: string)
      returns (r: Outcome<Result<Option<string>, CommandError>>)
      requires db.Valid()
      modifies db
      ensures db.Valid()
      ensures r == RemoveOutcome(old(db.sql), ctx.channel, name)
      ensures db.sql == TablesAfterRemove(old(db.sql), ctx.channel, name)
      ensures db.redis == RedisAfterChannel(old(db.sql), old(db.redis), ctx.channel)
      ensures r.Panicked? <==> ctx.channel.PlatformName().None?
      ensures r.Returned? ==>
        var ch := FindChannel(db.sql.channels, ctx.channel.PlatformName().value, ctx.channel.ChannelName().GetOr(""));
        ch.Some? &&
        r.value == (if (ch.value.id, name) in old(db.sql).commands then Ok(Some(RemovedReply))
                    else Err(DbError(InvalidValue)))
    {
      var res := db.DeleteCommandFromChannel(ctx.channel, name);
      match res {
        case Panicked(reason) => r := Panicked(reason);
        case Returned(Ok(_)) => r := Returned(Ok(Some(RemovedReply)));
        case Returned(Err(e)) => r := Returned(Err(DbError(e)));
      }
    }

    /** `run_command`. */
    method RunCommand(command: string, args: seq<string>, user: UserIdentifier, ctx: ExecutionContext, uptimeSecs: nat)
      returns (r: Outcome<Result<Option<string>, CommandError>>)
      requires db.Valid()
      modifies db
      ensures db.Valid()
      ensures r == RunOutcome(old(db.sql), command, args, user, ctx, uptimeSecs)
      ensures db.sql == TablesAfterRun(old(db.sql), command, args, ctx)
      ensures db.redis == RedisAfterRun(old(db.sql), old(db.redis), command, args, ctx)
      ensures RouteOf(command, args).PingRoute? ==>
        r.Returned? && r.value.Ok? && r.value.value.Some? && "Pong! Uptime " <= r.value.value.value
      ensures RouteOf(command, args).WhoAmIRoute? ==>
        r == Returned(Ok(Some(DebugUserLookup(FindUser(old(db.sql).users, user)) + ", permissions: " + DebugPermissions(ctx.permissions))))
      ensures RouteOf(command, args).CmdRoute? ==>
        var route := RouteOf(command, args);
        var plan := PlanOf(route.command, route.args, ctx.permissions);
        (plan.ListCommands? ==> r == Returned(Ok(Some(ListReply)))) &&
        (plan.Refuse? ==> r == Returned(Err(plan.error)))
      ensures RouteOf(command, args).StoredRoute? ==>
        db.sql == old(db.sql) &&
        match CommandLookup(old(db.sql), ctx.channel, command)
        case None => r == Returned(Ok(None))
        case Some(cmd) => r == Returned(Ok(if Expand(cmd.action) == [] then None else Some(Expand(cmd.action))))
      ensures !RouteOf(command, args).CmdRoute? ==> db.sql == old(db.sql)
    {
      var route := RouteOf(command, args);
      match route {
        case PingRoute =>
          var reply := PingReply(uptimeSecs);
          r := Returned(Ok(Some(reply)));
        case WhoAmIRoute =>
          var found := db.GetUser(user);
          r := Returned(Ok(Some(DebugUserLookup(found) + ", permissions: " + DebugPermissions(ctx.permissions))));
        case CmdRoute(name, cmdArgs) =>
          r := Cmd(name, cmdArgs, ctx);
        case StoredRoute(name) =>
          var stored := db.GetCommand(ctx.channel, name);
          if stored.None? {
            r := Returned(Ok(None));
          } else {
            var res := ExecuteCommandAction(stored.value.action);
            r := Returned(res);
          }
      }
    }

    /** `handle_command_message`: an empty command gets `❗`; otherwise the
        first token is the command, the others its arguments, and any error
        becomes an `Error: …` reply. */
    method HandleCommandMessage(text: string, user: UserIdentifier, ctx: ExecutionContext, uptimeSecs: nat)
      returns (r: Outcome<Option<string>>)
      requires db.Valid()
      modifies db
      ensures db.Valid()
      ensures r == MessageOutcome(old(db.sql), text, user, ctx, uptimeSecs)
      ensures db.sql == TablesAfterMessage(old(db.sql), text, ctx)
      ensures db.redis == RedisAfterMessage(old(db.sql), old(db.redis), text, ctx)
      ensures Text.AllWhitespace(text) ==> r == Returned(Some(EmptyCommandReply)) && db.sql == old(db.sql)
      ensures SplitCommand(text).Some? ==>
        var (command, args) := SplitCommand(text).value;
        var route := RouteOf(command, args);
        (route.StoredRoute? ==>
          db.sql == old(db.sql) &&
          r == Returned(match CommandLookup(old(db.sql), ctx.channel, command)
                        case None => None
                        case Some(cmd) => if Expand(cmd.action) == [] then None else Some(Expand(cmd.action)))) &&
        (route.CmdRoute? && PlanOf(route.command, route.args, ctx.permissions).Refuse? ==>
          r == Returned(Some("Error: " + PlanOf(route.command, route.args, ctx.permissions).error.Display())))
    {
      var split := SplitCommand(text);
      if split.None? {
        return Returned(Some(EmptyCommandReply));
      }
      var (command, args) := split.value;
      var res := RunCommand(command, args, user, ctx, uptimeSecs);
      match res {
        case Panicked(reason) => r := Panicked(reason);
        case Returned(result) => r := Returned(ReplyOf(result));
      }
    }
  }
}
