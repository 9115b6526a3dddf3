# foobot2 command path, modelled in Dafny

foobot2 is a chat bot with several connectors (Twitch, Discord and others).
A chat line that starts with the command prefix becomes a command:
- The Twitch connector strips the prefix and builds an execution context from the channel and the sender's badges.
- The command handler splits the line into a command word and arguments.
- It then routes the command. The builtins are `ping`, `whoami`/`id` and `cmd`/`command`/`commands`, plus the old `addcmd`/`delcmd` spellings. Any other word is looked up as a command stored for the channel.
- The action of a stored command is expanded into the reply. Each `$INQUIRY` is replaced by its answer plus one space.

The store is a `Database` class in two revisions: `src/database/mod.rs` and the older `src/database.rs`.
- **Tables.** They are values (`Tables.SqlTables`).
- **Caches.** The store's `DashMap` caches are map fields that its methods update: web sessions, users by id, user ids by identifier, prefixes, and channels.
- **Invariant.** `Valid()` ties every cache to the tables. Every lookup is proved to answer exactly what the tables hold, whatever entries the caches hold, as long as `Valid()` has them match the tables.
- **Reference functions.** The handler's methods are proved against pure functions of the tables: `CommandHandler.RunOutcome`, `CommandHandler.MessageOutcome` and `Twitch.PrivmsgOutcome` give the answer, `TablesAfterRun`, `TablesAfterMessage` and `TablesAfterPrivmsg` give the new tables, and `RedisAfterRun`, `RedisAfterMessage` and `RedisAfterPrivmsg` the new Redis command log. The lemmas beside them relate add, remove and lookup.

The outgoing side is the platform handler:
- It applies a channel's message filters in order.
- It publishes the filtered reply on the topic `prefix + platform`.
- The regular-expression engine is an abstract value (`PlatformHandler.RegexEngine`).

Also modelled:
- the `ping` command (uptime text, and the sum of `Pss:`/`SwapPss:` lines of smaps);
- the script helpers `format_string` and `to_int`.

Files (one module each):
- `wrappers.dfy`: `Option`, `Result`, and `Outcome`, which is a value or a panic (`unwrap` on `None`/`Err`);
- `text.dfy`: `split_whitespace`, `split`, `join`, `lines`, decimal printing and parsing, `{:?}` of strings;
- `platform.dfy`: user and channel identifiers, permissions, and the execution context;
- `models.dfy`: table rows, `User` creation and merge, and `DatabaseError`;
- `tables.dfy`: the tables and the queries on them, with their lemmas;
- `store.dfy`: the `Database` class of `src/database/mod.rs`, with the Redis command log;
- `legacy_store.dfy`: the `Database` class of `src/database.rs`;
- `command_handler.dfy`: splitting, routing, inquiries, action expansion, `cmd`, and the handler class;
- `platform_handler.dfy`: message filters and the publish;
- `twitch.dfy`: prefix strip, context, user identifier, and the reply decision;
- `ping.dfy`: the ping command;
- `eval_utils.dfy`: `format_string` and `to_int`.

Inputs the program reads from its environment are parameters:
- the seconds since start-up (`Instant::elapsed`);
- the text of `/proc/self/smaps`;
- the version string;
- the value of `OUTGOING_MESSAGES_CHANNEL_PREFIX` (an `Option`);
- the command prefix.

## Model

| member | source | states |
|---|---|---|
| Models.NewUser | src/database/mod.rs:471-492 | the new row has the given id, holds the identifier in its own column, and every other identifier column is `None` |
| Models.DatabaseError.Display | src/database/mod.rs:922-934 | a unique-key violation reads `Database error: ` and the server's words; the text is `Invalid value` exactly for `InvalidValue` |
| Models.MergeUser | src/database/mod.rs:515 | the merged user keeps `user`'s id and identifiers, gains every identifier of `other` whose column `user` lacks, and holds no identifier that neither had |
| Tables.FindUser | src/database/mod.rs:411-429 | the row found holds the identifier; `None` exactly when no row holds it |
| Tables.FindUserIsFirst | src/database/mod.rs:429 | `.first()`: the row found is the earliest row holding the identifier |
| Tables.FindUserById | src/database/mod.rs:445-448 | the row found has the id; `None` exactly when no row has it |
| Tables.DeleteUser | src/database/mod.rs:511-513 | the rows left are exactly the rows with another id |
| Tables.UpdateUser | src/database/mod.rs:517-520 | the row with the id is replaced and every other row stays where it was |
| Tables.FindUserAppend | src/database/mod.rs:494-497 | after an insert, a lookup finds the old answer if there was one, else the new row if it matches |
| Tables.DeleteFindById | src/database/mod.rs:511-513 | after the delete, the deleted id is gone and every other id is found as before |
| Tables.UpdateFindById | src/database/mod.rs:517-520 | after the update, the id finds the new row and every other id is found as before |
| Tables.MergeKeepsOtherRows | src/database/mod.rs:504-527 | merging keeps ids ordered and below the next id, and leaves every other user's row as it was |
| Tables.MergedRows | src/database/mod.rs:511-520 | the merged user is in the table, and every other row was there before and is neither of the two |
| Tables.MergedIdentifiersUnique | src/database/mod.rs:504-527 | with unique identifiers before, no identifier of the merged user is held by any other row, so identifiers stay unique |
| Tables.MergeResolvesIdentifiers | src/database/mod.rs:504-527 | after the merge, `other`'s id is gone, `user`'s id finds the merged user, every identifier of the merged user resolves to it, and ids stay ordered and identifiers unique |
| Tables.MergeKeepsUsersCache | src/database/mod.rs:507-524 | the users cache without the two ids is still coherent with the merged table |
| Tables.InsertUserKeepsCaches | src/database/mod.rs:494-499 | inserting a new user keeps both user caches coherent, and the re-lookup finds the new row |
| Tables.FindChannel | src/database/mod.rs:228-233 | the channel found has the platform and name; `None` exactly when no row has both |
| Tables.FindChannelAppend | src/database/mod.rs:241-255 | after inserting a channel, the lookup finds the old row if there was one, else the new row if it matches |
| Tables.InsertChannelWellFormed | src/database/mod.rs:236-244 | inserting a not-yet-present (platform, channel) keeps channel keys unique and ids consecutive |
| Tables.ChannelsAfterCreate | src/database/mod.rs:218-261 | the rows after `get_or_create_channel` extend the old ones by at most one and stay well formed; the lookup then finds the row, with the old row's id or the next id |
| Tables.ChannelsAfterCreateIdempotent | src/database/mod.rs:218-261 | a second `get_or_create_channel` for the same channel adds nothing and answers the same id |
| Tables.ChannelLookup | src/database/mod.rs:194-215 | `get_channel`: no channel string gives `None`; a found row matches the identifier's platform and channel; `None` otherwise means no row matches |
| Tables.CommandLookup | src/database/mod.rs:292-317 | `get_command`: a found command has the name and belongs to a channel matching the identifier; `None` means no matching channel has that command |
| Tables.CommandLookupVia | src/database/mod.rs:298-314 | once the identifier's channel row is known, the lookup is that row's command of the name |
| Tables.PlatformsOf | src/database/mod.rs:853-860 | the distinct platforms of the channels, each listed once |
| Tables.NamesOn | src/database/mod.rs:855-860 | the channel names listed for a platform are exactly that platform's channels |
| Tables.NamesSnoc | src/database/mod.rs:856-859 | adding a channel appends its name to its own platform's list only |
| Tables.FiltersOf | src/database/mod.rs:832-838 | the filters of a channel id are exactly the rows with that id |
| Tables.ReparentUserData | src/database/mod.rs:509 | `REPLACE INTO … SELECT`: every entry of `other` is copied under the kept id and wins over the kept user's value; every other entry stays; nothing else appears |
| Store.ChannelSetKeyInjective | src/database/mod.rs:867 | distinct platforms have distinct set keys |
| Store.RefreshPlatformSets | src/database/mod.rs:869-876 | after `DEL`, `SADD` and `PUBLISH` for a platform, its set holds exactly the listed names and no other set changes |
| Store.RefreshSetsListed | src/database/mod.rs:864-877 | after the refresh, each platform's set holds exactly its channel names |
| Store.RefreshSetsOthers | src/database/mod.rs:864-877 | the refresh touches no set other than the platforms' keys |
| Store.Database.constructor | src/database/mod.rs:53-86 | connects with all caches empty and the invariant established |
| Store.Database.ClearCaches | src/database/mod.rs:88-103 | the periodic clear empties the web-session, users and identifier caches, and nothing else |
| Store.Database.GetChannel | src/database/mod.rs:188-216 | the answer is the table's; only a found channel is cached |
| Store.Database.GetOrCreateChannel | src/database/mod.rs:218-261 | no platform gives `None`; otherwise the existing row, or a new row appended and its name added to `channels:{platform}` |
| Store.Database.LoadChannelsIntoRedis | src/database/mod.rs:850-880 | per platform, in order of first appearance, `DEL`, `SADD` of its channels in id order, one `PUBLISH` to `channels.update.{platform}`; the sets then hold exactly the channel names |
| Store.Database.GroupByPlatform | src/database/mod.rs:853-860 | the grouping map has an entry per platform holding its channel names in table order |
| Store.Database.RefreshCommands | src/database/mod.rs:864-877 | the commands sent are the refresh sequence of the grouping |
| Store.Database.AddCommand | src/database/mod.rs:348-361 | a builtin name is `InvalidValue` and inserts nothing; an existing key is `UniqueViolation`; otherwise the command is inserted; a command table without builtin names keeps none |
| Store.Database.AddCommandToChannel | src/database/mod.rs:327-346 | panics exactly when there is no platform, and then changes neither the tables nor the Redis log; otherwise Redis receives the `SADD` of `get_or_create_channel` exactly when the channel row is new, and nothing else; otherwise the channel rows are those `get_or_create_channel` leaves, and the command goes under that row's id with no permissions and cooldown 5; when the identifier has a channel string `get_command` then finds it, and without one `get_command` finds nothing although the row was stored under the empty name |
| Store.Database.DeleteCommand | src/database/mod.rs:386-400 | removes exactly the (channel, name) row; `InvalidValue` exactly when there was none |
| Store.Database.DeleteCommandFromChannel | src/database/mod.rs:373-384 | panics exactly when there is no platform, and then changes neither the tables nor the Redis log; otherwise Redis receives the `SADD` of `get_or_create_channel` exactly when the channel row is new, and nothing else; otherwise the channel rows are those `get_or_create_channel` leaves and the key under that row's id is deleted, after which `get_command` finds nothing |
| Store.Database.GetUser | src/database/mod.rs:402-437 | the answer is the table's; on a cache hit the user is cached by id via `get_user_by_id`; on a miss only a found user's id is cached |
| Store.Database.GetUserById | src/database/mod.rs:439-460 | the answer is the table's; only a found user is cached |
| Store.Database.GetOrCreateUser | src/database/mod.rs:462-502 | an existing user is returned unchanged; otherwise a row with the next id and only the identifier's column is inserted and returned |
| Store.Database.MergeUsers | src/database/mod.rs:504-527 | the tables become the merged users and the reparented user data; both ids leave the users cache; the identifier cache is emptied |
| Store.Database.GetPrefix | src/database/mod.rs:768-785 | the answer is the table's, and it is cached even when absent |
| Store.Database.GetFiltersInChannel | src/database/mod.rs:840-848 | an unknown channel is `InvalidValue`; otherwise the channel's filters |
| Store.Database.GetWebSession | src/database/mod.rs:655-681 | the answer is the table's; only a found session is cached |
| Store.Database.RemoveWebSession | src/database/mod.rs:715-724 | the session leaves both the table and the cache |
| LegacyStore.LegacyDatabase.constructor | src/database.rs:44-64 | connects with the three caches empty |
| LegacyStore.LegacyDatabase.ClearCaches | src/database.rs:66-81 | the periodic clear empties all three caches |
| LegacyStore.LegacyDatabase.GetWebSession | src/database.rs:554-581 | the answer is the table's; only a found session is cached |
| LegacyStore.LegacyDatabase.GetOrCreateChannel | src/database.rs:166-201 | no channel string gives `None`; otherwise the existing row, or a row inserted and then found by the recursive call |
| LegacyStore.LegacyDatabase.AddCommand | src/database.rs:286-299 | a builtin name is `InvalidValue` and inserts nothing; a command table without builtin names keeps none |
| LegacyStore.LegacyDatabase.AddCommandToChannel | src/database.rs:269-284 | panics exactly when there is no channel string (the `unwrap` on `get_or_create_channel`); otherwise inserts with no permissions and cooldown 5 |
| LegacyStore.LegacyDatabase.DeleteCommand | src/database.rs:321-335 | removes exactly the (channel, name) row; `InvalidValue` exactly when none was affected |
| LegacyStore.LegacyDatabase.DeleteCommandFromChannel | src/database.rs:311-319 | panics exactly when there is no channel string; otherwise the command is gone afterwards |
| LegacyStore.LegacyDatabase.GetUserById | src/database.rs:371-393 | the answer is the table's; only a found user is cached |
| LegacyStore.LegacyDatabase.GetUser | src/database.rs:337-369 | Twitch, Discord and IRC identifiers; the answer is the table's; the id is cached only on a hit |
| LegacyStore.LegacyDatabase.GetOrCreateUser | src/database.rs:395-430 | an existing user is returned; otherwise a row with exactly one of `twitch_id`/`discord_id`/`irc_name` set |
| LegacyStore.LegacyDatabase.MergeUsers | src/database.rs:432-455 | both ids leave the users cache and the identifier cache is emptied |
| LegacyStore.LegacyDatabase.GetAuth | src/database.rs:457-467 | `Some` exactly when the key is present, with its value |
| LegacyStore.LegacyDatabase.SetAuth | src/database.rs:469-477 | `REPLACE INTO`: the key then holds exactly the value |
| LegacyStore.LegacyDatabase.SaveToken | src/database.rs:615-626 | the access token, refresh token and creation time are always written; the expiry only when present, else the old one stays |
| LegacyStore.SaveTokenKeepsOldExpiry | src/database.rs:621-623 | a token without expiry leaves an earlier stored expiry in place |
| LegacyStore.SaveTokenKeepsOtherKeys | src/database.rs:615-626 | no key other than the four token keys changes |
| Text.TokensEmptyIff | src/command_handler.rs:56-58 | `split_whitespace` yields nothing exactly when the text is all whitespace |
| Text.TokensKeepVisible | src/command_handler.rs:56-60 | the tokens concatenated are the text without its whitespace |
| Text.SplitOn | src/command_handler.rs:169 | `split(':')` always yields at least one piece, none holding `:` |
| Text.SplitJoin | src/command_handler.rs:169-175 | joining the pieces with `:` gives the text back |
| Text.JoinSplit | src/command_handler.rs:169-175 | splitting a `:`-join of colon-free pieces gives the pieces back |
| Text.ParseI32RoundTrip | src/command_handler/commands/ping.rs:68 | every `i32` printed in decimal parses back to itself |
| Text.ParseIntText | src/command_handler/eval/utils.rs:15-18 | the decimal text of any integer parses as an `i32` exactly when it fits, and then as itself |
| Text.DecimalRoundTrip | src/command_handler/commands/ping.rs:68 | decimal printing and reading of naturals are inverse |
| Text.EscapeRoundTrip | src/command_handler.rs:178 | the `{:?}` escaping of a string is undone by unescaping |
| CommandHandler.InquiryError.Display | src/command_handler.rs:325-330 | `missing argument ` followed by exactly the argument |
| CommandHandler.InquiryDisplayInjective | src/command_handler.rs:325-330 | two inquiry errors display alike exactly when they are equal |
| CommandHandler.CommandError.Display | src/command_handler.rs:284-300 | `missing argument: …` and `invalid argument: …` carry the argument |
| CommandHandler.ReplyOf | src/command_handler.rs:62-68 | an error becomes `Some("Error: " + Display)`; a result is passed through |
| CommandHandler.SpacesPanic | src/command_handler.rs:53-58 | a line of one space passes the emptiness check and panics at the split |
| CommandHandler.SplitCommand | src/command_handler.rs:56-60 | no command exactly when the line is all whitespace; otherwise the command and arguments are the tokens |
| CommandHandler.SplitCommandAgrees | src/command_handler.rs:53-60 | the code panics exactly where the corrected split finds no command, and agrees with it everywhere else |
| CommandHandler.RouteOf | src/command_handler.rs:82-118 | a word is looked up in the store exactly when it is none of the ten builtin words |
| CommandHandler.AliasesAreCommand | src/command_handler.rs:91-114 | `addcmd`/`cmdadd` are `command add …`, `delcmd`/`cmddel` are `command remove …` |
| CommandHandler.MakeInquiry | src/command_handler.rs:164-181 | never an error; an answer exactly when the part before the first `:` is `DO_SOMETHING` |
| CommandHandler.DoSomethingEchoesArguments | src/command_handler.rs:175-178 | `DO_SOMETHING:a:b…` answers `did something with ` and the `{:?}` of exactly those arguments |
| CommandHandler.InquiryEnd | src/command_handler.rs:138-144 | the inquiry runs to the first space or to the end |
| CommandHandler.ExpandLiteral | src/command_handler.rs:153 | text without `$` is copied verbatim |
| CommandHandler.ExpandInquiry | src/command_handler.rs:135-151 | an inquiry up to a space gives its answer and one space, the space is consumed, and the rest goes on; at the end of the text it still gets its space |
| CommandHandler.ExpandEmptyIff | src/command_handler.rs:157-161 | the response is empty exactly when the action is |
| CommandHandler.UnansweredInquiryIsSpace | src/command_handler.rs:135-161 | for any `$`-free text followed by an inquiry at the end of the action that is not `DO_SOMETHING`, the response is the text and one space |
| CommandHandler.ExecuteCommandAction | src/command_handler.rs:122-162 | the scan produces the expansion of the action; `None` exactly when the action is empty; never an error |
| CommandHandler.ReadInquiry | src/command_handler.rs:136-144 | the inner loop reads up to the next space or the end |
| CommandHandler.PlanOf | src/command_handler.rs:216-271 | no arguments list the commands whatever the permissions; otherwise `Default` is refused; `add` needs a name and a non-empty action; an unknown subcommand is `InvalidArgument(command)` |
| CommandHandler.AddNeedsNameAndAction | src/command_handler.rs:227-238 | `add` without a name, or with nothing after it, is the matching `MissingArgument` |
| CommandHandler.JoinTokensEmptyIff | src/command_handler.rs:232-234 | the action joined from non-empty words is empty exactly when there are none |
| CommandHandler.Handler.PingReply | src/command_handler.rs:183-208 | `Pong! Uptime ` followed by the uptime text of `Ping.UptimeText` (hours, minutes, or the bare seconds) |
| CommandHandler.Handler.AddToChannel | src/command_handler.rs:240-251 | the outcome is `AddOutcome` and the new tables `TablesAfterAdd`: without a platform the store panics and nothing changes; otherwise `Command successfully added` with the command inserted under the channel's id, `Command already exists` when the key is taken, or `InvalidValue` for a builtin name, the last two with the commands unchanged; the Redis log is `RedisAfterChannel` |
| CommandHandler.Handler.RemoveFromChannel | src/command_handler.rs:252-264 | the outcome is `RemoveOutcome` and the new tables `TablesAfterRemove`: without a platform the store panics and nothing changes; otherwise `Command succesfully removed` when the command was there and `InvalidValue` when it was not, and either way the key is gone; the Redis log is `RedisAfterChannel` |
| CommandHandler.Handler.Cmd | src/command_handler.rs:210-272 | the outcome is `CmdOutcome` and the new tables `TablesAfterCmd`: the list, a refusal, or for `add`/`remove` the store's answer in the created-or-found channel (added, already exists, or a database error for builtin names; removed or `InvalidValue`), with exactly that command inserted or deleted; the store panics exactly without a platform; the Redis log is `RedisAfterCmd`: only `add`/`remove` can send the `SADD` of a new channel |
| CommandHandler.Handler.RunCommand | src/command_handler.rs:73-120 | the outcome is `RunOutcome` and the new tables `TablesAfterRun`: `ping` the pong text, `whoami` the user lookup and the permissions, `cmd` as above, an unknown word without a stored command `Ok(None)`, a stored command its expansion; only `cmd` writes to the tables or to Redis (`RedisAfterRun`) |
| CommandHandler.TablesAfterAdd | src/command_handler.rs:227-251 | the tables after `cmd add` keep the channel rows well formed and every command under its own key |
| CommandHandler.TablesAfterRemove | src/command_handler.rs:252-264 | the tables after `cmd remove` keep the channel rows well formed and every command under its own key |
| CommandHandler.AddedIsFound | src/database/mod.rs:292-346 | a command that `cmd add` reports added is what `get_command` on the same channel then finds, with no permissions and cooldown 5 |
| CommandHandler.AddTwiceExists | src/command_handler.rs:240-251 | adding the same name again answers `Command already exists` and leaves the tables as they were |
| CommandHandler.AddThenRemoveRestores | src/database/mod.rs:327-400 | removing a name just added answers the removal and gives the command table back |
| CommandHandler.BuiltinAddRefused | src/database/mod.rs:348-361 | `cmd add` of a builtin name is refused with `InvalidValue`, inserts nothing, and the reply reads `Error: database error: Invalid value` |
| CommandHandler.RedisFollowsNewChannels | src/database/mod.rs:218-261 | a command line only appends to the Redis log, by exactly as many entries as it creates channel rows; a new entry is the `SADD` of the context's channel name to its platform's set, and that channel was not in the tables |
| CommandHandler.MessagePanicsOnlyWithoutPlatform | src/database/mod.rs:327-384 | a command line panics only as `cmd add`/`cmd remove` in a context without a platform |
| CommandHandler.SilentOnlyForStored | src/command_handler.rs:82-118 | only a stored-command word answers nothing; every builtin gives a reply |
| CommandHandler.Handler.HandleCommandMessage | src/command_handler.rs:43-70 | with the corrected split of the Findings: the outcome is `MessageOutcome` and the new tables `TablesAfterMessage`; an all-whitespace line answers `❗` without lookup, otherwise `run_command`'s outcome with errors shown as `Error: …`; the Redis log is `RedisAfterMessage` |
| PlatformHandler.RunAppend | src/command_handler/platform_handler.rs:56-78 | filters are applied in order, each on the previous one's output, and a stop ends the run |
| PlatformHandler.BlockingMatchClears | src/command_handler/platform_handler.rs:60-64 | a matching blocking filter clears the message, and later filters are not applied |
| PlatformHandler.BlockingMissPasses | src/command_handler/platform_handler.rs:60-64 | a blocking filter that does not match leaves the message unchanged |
| PlatformHandler.ReplacingSubstitutes | src/command_handler/platform_handler.rs:66-71 | a replacing filter substitutes its replacement, `[Blocked]` by default |
| PlatformHandler.BadPatternOverwrites | src/command_handler/platform_handler.rs:74-76 | a bad pattern overwrites the message with the diagnostic, and the loop goes on with that text |
| PlatformHandler.NoMatchNoChange | src/command_handler/platform_handler.rs:56-78 | filters that compile and do not match leave the message unchanged |
| PlatformHandler.PlatformHandlerError.Display | src/command_handler/platform_handler.rs:102-115 | a platform error reads `Platform error: ` and its message |
| PlatformHandler.Handler.constructor | src/command_handler/platform_handler.rs:12-16 | the handler holds the given filters and has published nothing |
| PlatformHandler.Handler.FilterMessage | src/command_handler/platform_handler.rs:51-80 | the loop's result is the filtered message; a channel without filters is unchanged |
| PlatformHandler.Handler.SendToChannel | src/command_handler/platform_handler.rs:19-49 | no platform is `Unsupported` and publishes nothing; otherwise exactly one publish on prefix (default `messages.outgoing.`) plus platform, of the filtered text and the channel name (default empty), even when emptied |
| Twitch.StripPrefix | src/platform/twitch.rs:79-80 | a message is dispatched exactly when it starts with the prefix, and the dispatched text is what follows it |
| Twitch.StripPrefixOfPrefixed | src/platform/twitch.rs:79-80 | the prefix put in front of a text is stripped back off |
| Twitch.PermissionsOf | src/platform/twitch.rs:84-92 | `ChannelMod` exactly when a badge is `moderator` or `broadcaster`, `Default` otherwise |
| Twitch.MoreBadgesNoFewerPermissions | src/platform/twitch.rs:84-92 | extra badges never take moderator permissions away |
| Twitch.ContextOf | src/platform/twitch.rs:82-93 | the context channel is the Twitch login, with a platform and a channel name, and the badges' permissions |
| Twitch.GetUserIdentifier | src/platform/twitch.rs:122-124 | the sender's id as a Twitch identifier, stored in the Twitch column |
| Twitch.GetText | src/platform/twitch.rs:126-128 | the message text itself |
| Twitch.HandlePrivmsg | src/platform/twitch.rs:76-111 | the outcome is `PrivmsgOutcome` and the new tables `TablesAfterPrivmsg`: without the prefix nothing happens; otherwise the handler's answer to the stripped text (corrected split), sent as a reply to the stripped message, and nothing when it answers nothing; the Redis log is `RedisAfterPrivmsg` |
| Twitch.PrivmsgNeverPanics | src/platform/twitch.rs:82-93 | a Twitch message never makes the handler panic, because its context always names a platform |
| Ping.HoursAndMinutes | src/command_handler/commands/ping.rs:35-36 | the hours are `secs / 3600`; the minutes are below 60; together they are the whole minutes |
| Ping.FormatUptime | src/command_handler/commands/ping.rs:32-53 | the text built part by part is `UptimeText`: `{h}h ` when there are hours, then `{m}m ` when there are minutes, and `{secs}s` only when neither; never empty |
| Ping.SecondsOnlyUnderAMinute | src/command_handler/commands/ping.rs:48-50 | seconds are shown exactly when the uptime is under a minute |
| Ping.WholeHours | src/command_handler/commands/ping.rs:35-46 | exactly `h` hours shows hours and no minutes |
| Ping.WholeHoursText | src/command_handler/commands/ping.rs:35-46 | an uptime of exactly `h` hours reads `{h}h ` |
| Ping.UptimeNamesSeconds | src/command_handler/commands/ping.rs:40-50 | the uptime text is the plain seconds exactly when there are no hours or minutes |
| Ping.LineContribution | src/command_handler/commands/ping.rs:62-68 | other lines add 0; a `Pss:`/`SwapPss:` line adds its second token as an `i32` or panics |
| Ping.ReadLine | src/command_handler/commands/ping.rs:62-69 | the loop body reads the line's contribution |
| Ping.ContributionAt | src/command_handler/commands/ping.rs:61 | the contributions follow the lines one for one, in order |
| Ping.SumLines | src/command_handler/commands/ping.rs:59-70 | the loop computes the running sum over the lines; the first panicking line ends it |
| Ping.SumPss | src/command_handler/commands/ping.rs:59-70 | the total over `smaps.lines()` |
| Ping.PanicIsFinal | src/command_handler/commands/ping.rs:64-68 | once a line panics, the whole sum is that panic |
| Ping.OtherLinesAddNothing | src/command_handler/commands/ping.rs:62 | text without `Pss:`/`SwapPss:` lines totals 0 |
| Ping.PssTotalAppend | src/command_handler/commands/ping.rs:59-70 | the total over two stretches of lines is the sum of their totals |
| Ping.MebibytesBounds | src/command_handler/commands/ping.rs:76 | the MiB figure is the KiB total divided by 1024, rounded toward zero |
| Ping.Execute | src/command_handler/commands/ping.rs:25-78 | a panicking smaps read is the outcome; otherwise exactly `Pong! Version: {v}, Uptime {UptimeText}, RAM usage: {total / 1024} MiB` |
| EvalUtils.FirstPlaceholder | src/command_handler/eval/utils.rs:8 | the leftmost `{}`, or `None` when there is none |
| EvalUtils.ReplaceFirst | src/command_handler/eval/utils.rs:8 | `replacen(…, 1)`: only the leftmost `{}` is replaced; without one the text is unchanged |
| EvalUtils.LeadingStrings | src/command_handler/eval/utils.rs:6-10 | the arguments used are the string parameters up to the first non-string one |
| EvalUtils.FormatString | src/command_handler/eval/utils.rs:3-13 | the loop's result is the template filled left to right with the leading string arguments; a missing or non-string template is an error |
| EvalUtils.FormatTemplateOnly | src/command_handler/eval/utils.rs:4-12 | with no arguments the template comes back unchanged |
| EvalUtils.FormatOneArgument | src/command_handler/eval/utils.rs:8 | the first argument lands in the leftmost `{}` |
| EvalUtils.FormatStopsAtNonString | src/command_handler/eval/utils.rs:6-10 | nothing after the first non-string parameter is used |
| EvalUtils.FillWithoutPlaceholders | src/command_handler/eval/utils.rs:8 | arguments applied when no `{}` remains change nothing |
| EvalUtils.ReplacedFindsArgumentPlaceholder | src/command_handler/eval/utils.rs:8 | after the leftmost `{}` is filled with an argument that has a `{}`, the leftmost `{}` is the argument's own first one, unless the template's `{` before it meets a `}` the argument starts with |
| EvalUtils.InsertedPlaceholderFilledNext | src/command_handler/eval/utils.rs:5-10 | under the same condition, the next argument fills the `{}` the previous argument brought in, for every template and arguments |
| EvalUtils.ToInt | src/command_handler/eval/utils.rs:15-18 | no parameter is an error; otherwise the parameter's text parsed as an `i32`, and `NotAnInteger` of that text exactly when it does not parse |
| EvalUtils.ToIntOfInt | src/command_handler/eval/utils.rs:15-18 | an integer converts to itself exactly when it fits in an `i32` |

## Left out

- I/O and concurrency are not modelled: the diesel connection pool, MySQL, Redis I/O, the `DashMap` locking, `tokio` tasks and the IRC receive loop. Tables, caches and the Redis command log are sequential values and fields.
- Database driver failures are not modelled: diesel and Redis errors other than a duplicate key, and the `expect` panics on failed inserts. Every query succeeds in the model.
- The regular-expression engine is an abstract value. Only the law that a pattern which does not match leaves `replace_all` nothing to replace is assumed of it. That law is the precondition of `PlatformHandler.NoMatchNoChange`.
- `Instant::elapsed`, `/proc/self/smaps`, `get_version` and `env::var` are parameters. The smaps read that fails (`expect`) is outside the model.
- The `hebi` `Scope` API is replaced by a sequence of values (`EvalUtils.Value`). A parameter's `to_string` is its text.
- Ping.SumLines: it sums in unbounded integers and does not model the overflow of the `i32` total (a panic in debug builds). Each line's value is an `i32`.
- Cooldowns are stored as 5 and never enforced, as in the code. The `ping` constants (`Ping.Names`, `Ping.Cooldown`, `Ping.RequiredPermissions`) are plain constants.
- The channel cache is keyed by the channel identifier, not by its `to_string`. The `Display` of `ChannelIdentifier` is not part of this model, so two identifiers with the same string are not told apart.
- `User::merge` is not part of this model. `Models.MergeUser` fills each identifier column of `user` that is empty from `other` and keeps `user`'s value where both are set.
- `{:?}` of `User` and `Result` in `whoami` follows the column order of the users table. The `User` struct and its `Debug` derive are not part of this model.
- The `DO_SOMETHING` answer uses the `{:?}` of a list of strings, escaping `"`, `\`, newline, carriage return, tab and NUL; other escapes are not modelled.
- The handler and the stores come from different revisions: `cmd` calls `add_command(channel, name, action)` and matches a diesel `UniqueViolation`, and `delete_command(channel, name)`. Neither signature exists in either store. The model calls `Store.Database.AddCommandToChannel` and `DeleteCommandFromChannel`, whose `UniqueViolation` error stands for the duplicate-key diesel error.
- `twitch.rs` line 100 passes three arguments to the two-argument `handle_command_message`. The model passes the message's own user identifier, which is what the two-argument form reads.
- The `MissingArgument("must be either add or delete")` branch of `cmd` (line 224-226) cannot be reached, because the argument list was checked to be non-empty. It is not modelled.
- CommandHandler.Handler.Cmd: for an unknown subcommand the error names the command word (`invalid argument: cmd`), not the subcommand, as in the code.
- `InquiryError::MissingArgument` cannot arise, because `split(':')` always yields a piece. `CommandHandler.MakeInquiry` keeps the branch and proves it unreachable.
- LegacyStore.LegacyDatabase.SaveToken: a token without an expiry leaves the earlier `twitch_expires_at` in place, as in the code. The RFC 3339 formatting of the dates is not modelled; dates are strings.
- The legacy `DatabaseError::DieselError` is represented, like the later store's, by `UniqueViolation` only.
- `PlatformHandlerError::PlatformError` carries the publish error's text. The publish itself always succeeds in the model.
- CommandHandler.Handler.HandleCommandMessage: uses the corrected split of the Findings. The code as written panics on a non-empty line of whitespace only; that behaviour is `CommandHandler.SplitAsWritten` and `CommandHandler.SpacesPanic`.
- Twitch.HandlePrivmsg: goes through the corrected split, so a prefix followed only by whitespace is answered with `❗`, where the code panics.
- Store.Database.LoadChannelsIntoRedis: the code walks a `HashMap`, whose platform order is unspecified. The model fixes the order of first appearance, and its contract is proved for that order only. Which names each set ends up holding does not depend on the order, but that is not proved.
- Store.Database.AddCommandToChannel: a `PlatformChannel(p, None)` identifier stores the command under the channel named `""`, and `get_command` on that identifier never finds it. Both halves are stated as in the code.
- Tables.ChannelsWellFormed: channel ids are assumed to be consecutive from 1 in row order (`id == position + 1`), so a new row gets the next id. MySQL's auto-increment does not promise this: deleted rows and rolled-back inserts leave gaps. Every lemma that uses the invariant holds only for tables without such gaps.
- The `RedisError` variant of `DatabaseError` is not modelled, because Redis commands always succeed in the model.
- Commands under builtin names that are already in the tables when a store connects are not excluded. Only the store's own inserts are proved to keep such names out.
- Not part of this model: `twitch_api.rs`, the web handlers (`api.rs`, `template_context.rs`), `userinfo.rs`, the Spotify refresh in `start_cron`, web-session creation (random ids), and the other store methods (user data, mirror connections, eventsub triggers).

## Findings

| source | as written | input that shows it | evidently intended | confidence | as-written member | corrected member |
|---|---|---|---|---|---|---|
| src/command_handler.rs:53-58 | only the empty text is answered with `❗`; any other text is split on whitespace and the first token is taken with `unwrap` | the text `" "` (a prefix followed by a space) | a line with no token is answered like the empty line | not executed | CommandHandler.SpacesPanic | CommandHandler.SplitCommandAgrees |
