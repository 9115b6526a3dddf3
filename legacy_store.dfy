/** The earlier revision of the store, `src/database.rs`: the same tables,
    three identifier kinds, three caches, no Redis, and a channel
    get-or-create that inserts and then calls itself. */
module LegacyStore {
  import opened Wrappers
  import opened Platform
  import opened Models
  import opened Tables

  /** The identifier kinds this revision knows. */
  type LegacyIdentifier = i: UserIdentifier | i.TwitchID? || i.DiscordID? || i.IrcName? witness TwitchID("")

  const AccessTokenKey := "twitch_access_token"
  const RefreshTokenKey := "twitch_refresh_token"
  const CreatedAtKey := "twitch_created_at"
  const ExpiresAtKey := "twitch_expires_at"

  /** Every cache entry agrees with the table behind it. */
  ghost predicate Coherent(sql: SqlTables, webSessionsCache: map<string, WebSession>, usersCache: map<nat, User>,
                           userIdentifiersCache: map<UserIdentifier, nat>)
  {
    WellFormed(sql) &&
    UsersCacheCoherent(sql.users, usersCache) &&
    IdentifiersCacheCoherent(sql.users, userIdentifiersCache) &&
    SessionsCacheCoherent(sql.webSessions, webSessionsCache)
  }

  lemma MergeKeepsCoherent(sql: SqlTables, ws: map<string, WebSession>, uc: map<nat, User>,
                           uic: map<UserIdentifier, nat>, user: User, other: User)
    requires Coherent(sql, ws, uc, uic)
    ensures Coherent(sql.(users := MergedUsers(sql.users, user, other),
                          userData := ReparentUserData(sql.userData, user.id, other.id)),
                     ws, uc - {other.id, user.id}, map[])
  {
    MergeKeepsUsersCache(sql.users, sql.nextUserId, uc, user, other);
  }

  /** A cached id is the id of the row the identifier finds, so looking it
      up by id finds that same row. */
  lemma CachedIdentifierFound(users: seq<User>, uic: map<UserIdentifier, nat>, ident: UserIdentifier)
    requires IdsIncreasing(users) && IdentifiersCacheCoherent(users, uic) && ident in uic
    ensures FindUser(users, ident).Some? && FindUser(users, ident).value.id == uic[ident]
    ensures FindUserById(users, uic[ident]) == FindUser(users, ident)
  {
    FindUserByIdOfMember(users, FindUser(users, ident).value);
  }

  /** A cached row is the row the table holds under that id. */
  lemma CachedUserFound(users: seq<User>, uc: map<nat, User>, id: nat)
    requires UsersCacheCoherent(users, uc) && id in uc
    ensures FindUserById(users, id) == Some(uc[id])
  {
  }

  lemma CacheUserKeepsCoherent(sql: SqlTables, ws: map<string, WebSession>, uc: map<nat, User>,
                               uic: map<UserIdentifier, nat>, id: nat, u: User)
    requires Coherent(sql, ws, uc, uic) && FindUserById(sql.users, id) == Some(u)
    ensures Coherent(sql, ws, uc[id := u], uic)
  {
  }

  lemma CacheIdentifierKeepsCoherent(sql: SqlTables, ws: map<string, WebSession>, uc: map<nat, User>,
                                     uic: map<UserIdentifier, nat>, ident: UserIdentifier)
    requires Coherent(sql, ws, uc, uic) && FindUser(sql.users, ident).Some?
    ensures Coherent(sql, ws, uc, uic[ident := FindUser(sql.users, ident).value.id])
  {
  }

  class LegacyDatabase {
    var sql: SqlTables
    var webSessionsCache: map<string, WebSession>
    var usersCache: map<nat, User>
    var userIdentifiersCache: map<UserIdentifier, nat>

    ghost predicate Valid()
      reads this
    {
      Coherent(sql, webSessionsCache, usersCache, userIdentifiersCache)
    }

    /** `connect`. */
    constructor (tables: SqlTables)
      requires WellFormed(tables)
      ensures Valid()
      ensures sql == tables
      ensures webSessionsCache == map[] && usersCache == map[] && userIdentifiersCache == map[]
    {
      sql := tables;
      webSessionsCache := map[];
      usersCache := map[];
      userIdentifiersCache := map[];
    }

    /** The hourly step of `start_cron`: all three caches are emptied. */
    method ClearCaches()
      requires Valid()
      modifies this
      ensures Valid()
      ensures sql == old(sql)
      ensures webSessionsCache == map[] && usersCache == map[] && userIdentifiersCache == map[]
    {
      webSessionsCache := map[];
      usersCache := map[];
      userIdentifiersCache := map[];
    }

    /** `get_web_session`: only found sessions are cached. */
    method GetWebSession(sessionId: string) returns (r: Option<WebSession>)
      requires Valid()
      modifies this
      ensures Valid()
      ensures r == if sessionId in sql.webSessions then Some(sql.webSessions[sessionId]) else None
      ensures webSessionsCache == if r.Some? then old(webSessionsCache)[sessionId := r.value] else old(webSessionsCache)
      ensures sql == old(sql) && usersCache == old(usersCache) && userIdentifiersCache == old(userIdentifiersCache)
    {
      if sessionId in webSessionsCache {
        r := Some(webSessionsCache[sessionId]);
      } else if sessionId in sql.webSessions {
        r := Some(sql.webSessions[sessionId]);
        webSessionsCache := webSessionsCache[sessionId := r.value];
      } else {
        r := None;
      }
    }

    /** `get_or_create_channel`: an identifier without a channel string has
        no channel; otherwise the row is found, or inserted and found by the
        recursive call. */
    method GetOrCreateChannel(ident: ChannelIdentifier) returns (r: Option<Channel>)
      requires Valid()
      modifies this
      decreases if ident.ChannelName().Some? &&
                   FindChannel(sql.channels, ident.PlatformName().value, ident.ChannelName().value).None? then 1 else 0
      ensures Valid()
      ensures r.None? <==> ident.ChannelName().None?
      ensures ident.ChannelName().None? ==> sql == old(sql)
      ensures ident.ChannelName().Some? ==>
        var platform := ident.PlatformName().value;
        var name := ident.ChannelName().value;
        r == FindChannel(sql.channels, platform, name) &&
        sql == (if FindChannel(old(sql).channels, platform, name).Some? then old(sql)
                else old(sql).(channels := old(sql).channels + [Channel(|old(sql).channels| + 1, platform, name)]))
      ensures webSessionsCache == old(webSessionsCache) && usersCache == old(usersCache)
      ensures userIdentifiersCache == old(userIdentifiersCache)
    {
      match ident.ChannelName() {
        case None =>
          r := None;
        case Some(name) =>
          var platform := ident.PlatformName().value;
          var existing := FindChannel(sql.channels, platform, name);
          if existing.Some? {
            r := existing;
          } else {
            var row := Channel(|sql.channels| + 1, platform, name);
            InsertChannelWellFormed(sql.channels, platform, name);
            FindChannelAppend(sql.channels, row, platform, name);
            sql := sql.(channels := sql.channels + [row]);
            r := GetOrCreateChannel(ident);
          }
      }
    }

    /** `add_command`: builtin names are `InvalidValue` and insert nothing. */
    method AddCommand(cmd: Command) returns (r: Result<(), DatabaseError>)
      requires Valid()
      modifies this
      ensures Valid()
      ensures cmd.name in BuiltinCommands ==> r == Err(InvalidValue)
      ensures cmd.name !in BuiltinCommands ==>
        r == if (cmd.channelId, cmd.name) in old(sql).commands then Err(UniqueViolation) else Ok(())
      ensures sql == if r.Ok? then old(sql).(commands := old(sql).commands[(cmd.channelId, cmd.name) := cmd]) else old(sql)
      ensures NoBuiltinNames(old(sql).commands) ==> NoBuiltinNames(sql.commands)
      ensures webSessionsCache == old(webSessionsCache) && usersCache == old(usersCache)
      ensures userIdentifiersCache == old(userIdentifiersCache)
    {
      if cmd.name in BuiltinCommands {
        r := Err(InvalidValue);
      } else if (cmd.channelId, cmd.name) in sql.commands {
        r := Err(UniqueViolation);
      } else {
        sql := sql.(commands := sql.commands[(cmd.channelId, cmd.name) := cmd]);
        r := Ok(());
      }
    }

    /** `get_command`, answered from the tables as in the later revision. */
    function GetCommand(ident: ChannelIdentifier, name: string): Option<Command>
      requires Valid()
      reads this
    {
      CommandLookup(sql, ident, name)
    }

    /** `add_command_to_channel`: here `get_or_create_channel` gives `None`
        for an identifier without a channel string, so the `unwrap` panics on
        every such identifier, not only on `Anonymous`. */
    method AddCommandToChannel(ident: ChannelIdentifier, trigger: string, action: string)
      returns (r: Outcome<Result<(), DatabaseError>>)
      requires Valid()
      modifies this
      ensures Valid()
      ensures r.Panicked? <==> ident.ChannelName().None?
      ensures r.Panicked? ==> sql == old(sql)
      ensures r.Returned? ==>
        var platform := ident.PlatformName().value;
        var ch := FindChannel(sql.channels, platform, ident.ChannelName().value);
        ch.Some? &&
        sql.channels == (if FindChannel(old(sql).channels, platform, ident.ChannelName().value).Some? then old(sql).channels
                         else old(sql).channels + [ch.value]) &&
        (trigger in BuiltinCommands ==> r.value == Err(InvalidValue)) &&
        (trigger !in BuiltinCommands ==>
          r.value == if (ch.value.id, trigger) in old(sql).commands then Err(UniqueViolation) else Ok(())) &&
        sql.commands == if r.value.Ok? then old(sql).commands[(ch.value.id, trigger) := Command(ch.value.id, trigger, action, None, 5)]
                        else old(sql).commands
      ensures r == Returned(Ok(())) ==>
        GetCommand(ident, trigger).Some? &&
        GetCommand(ident, trigger).value == Command(GetCommand(ident, trigger).value.channelId, trigger, action, None, 5)
      ensures sql.users == old(sql).users && sql.userData == old(sql).userData && sql.prefixes == old(sql).prefixes
      ensures sql.filters == old(sql).filters && sql.webSessions == old(sql).webSessions && sql.auth == old(sql).auth
      ensures sql.nextUserId == old(sql).nextUserId
      ensures webSessionsCache == old(webSessionsCache) && usersCache == old(usersCache)
      ensures userIdentifiersCache == old(userIdentifiersCache)
    {
      var ch := GetOrCreateChannel(ident);
      if ch.None? {
        r := Panicked(UnwrapNone);
      } else {
        var res := AddCommand(Command(ch.value.id, trigger, action, None, 5));
        r := Returned(res);
        CommandLookupVia(sql, ident, ch.value, trigger);
      }
    }

    /** `delete_command`: `InvalidValue` exactly when no row was affected. */
    method DeleteCommand(channelId: nat, name: string) returns (r: Result<(), DatabaseError>)
      requires Valid()
      modifies this
      ensures Valid()
      ensures r == if (channelId, name) in old(sql).commands then Ok(()) else Err(InvalidValue)
      ensures sql == old(sql).(commands := old(sql).commands - {(channelId, name)})
      ensures webSessionsCache == old(webSessionsCache) && usersCache == old(usersCache)
      ensures userIdentifiersCache == old(userIdentifiersCache)
    {
      var affected := if (channelId, name) in sql.commands then 1 else 0;
      sql := sql.(commands := sql.commands - {(channelId, name)});
      r := if affected == 0 then Err(InvalidValue) else Ok(());
    }

    /** `delete_command_from_channel`: goes through `get_or_create_channel`,
        so a delete may create the channel. */
    method DeleteCommandFromChannel(ident: ChannelIdentifier, name: string)
      returns (r: Outcome<Result<(), DatabaseError>>)
      requires Valid()
      modifies this
      ensures Valid()
      ensures r.Panicked? <==> ident.ChannelName().None?
      ensures r.Panicked? ==> sql == old(sql)
      ensures r.Returned? ==>
        var ch := FindChannel(sql.channels, ident.PlatformName().value, ident.ChannelName().value);
        ch.Some? &&
        r.value == (if (ch.value.id, name) in old(sql).commands then Ok(()) else Err(InvalidValue)) &&
        sql.commands == old(sql).commands - {(ch.value.id, name)}
      ensures r.Returned? ==> GetCommand(ident, name).None?
      ensures sql.users == old(sql).users && sql.userData == old(sql).userData && sql.prefixes == old(sql).prefixes
      ensures sql.filters == old(sql).filters && sql.webSessions == old(sql).webSessions && sql.auth == old(sql).auth
      ensures sql.nextUserId == old(sql).nextUserId
      ensures webSessionsCache == old(webSessionsCache) && usersCache == old(usersCache)
      ensures userIdentifiersCache == old(userIdentifiersCache)
    {
      var ch := GetOrCreateChannel(ident);
      if ch.None? {
        r := Panicked(UnwrapNone);
      } else {
        var res := DeleteCommand(ch.value.id, name);
        r := Returned(res);
        CommandLookupVia(sql, ident, ch.value, name);
      }
    }

    /** `get_user_by_id`: only found users are cached. */
    method GetUserById(id: nat) returns (r: Option<User>)
      requires Valid()
      modifies this
      ensures Valid()
      ensures r == FindUserById(sql.users, id)
      ensures usersCache == if r.Some? then old(usersCache)[id := r.value] else old(usersCache)
      ensures sql == old(sql)
      ensures webSessionsCache == old(webSessionsCache) && userIdentifiersCache == old(userIdentifiersCache)
    {
      if id in usersCache {
        CachedUserFound(sql.users, usersCache, id);
        UpdateWithSame(usersCache, id);
        r := Some(usersCache[id]);
      } else {
        r := FindUserById(sql.users, id);
        if r.Some? {
          CacheUserKeepsCoherent(sql, webSessionsCache, usersCache, userIdentifiersCache, id, r.value);
          usersCache := usersCache[id := r.value];
        }
      }
    }

    /** `get_user`: the identifier-to-id mapping is cached only on a hit. */
    method GetUser(ident: LegacyIdentifier) returns (r: Option<User>)
      requires Valid()
      modifies this
      ensures Valid()
      ensures r == FindUser(sql.users, ident)
      ensures userIdentifiersCache == if r.Some? then old(userIdentifiersCache)[ident := r.value.id] else old(userIdentifiersCache)
      ensures usersCache == if ident in old(userIdentifiersCache) then old(usersCache)[r.value.id := r.value] else old(usersCache)
      ensures sql == old(sql) && webSessionsCache == old(webSessionsCache)
    {
      if ident in userIdentifiersCache {
        var id := userIdentifiersCache[ident];
        UpdateWithSame(userIdentifiersCache, ident);
        CachedIdentifierFound(sql.users, userIdentifiersCache, ident);
        r := GetUserById(id);
      } else {
        r := FindUser(sql.users, ident);
        if r.Some? {
          CacheIdentifierKeepsCoherent(sql, webSessionsCache, usersCache, userIdentifiersCache, ident);
          userIdentifiersCache := userIdentifiersCache[ident := r.value.id];
        }
      }
    }

    /** `get_or_create_user`: a new row sets exactly one of the Twitch, Discord
        and IRC columns. */
    method GetOrCreateUser(ident: LegacyIdentifier) returns (u: User)
      requires Valid()
      modifies this
      ensures Valid()
      ensures HasIdentifier(u, ident) && u in sql.users && FindUser(sql.users, ident) == Some(u)
      ensures FindUser(old(sql).users, ident).Some? ==> u == FindUser(old(sql).users, ident).value && sql == old(sql)
      ensures FindUser(old(sql).users, ident).None? ==>
        u == NewUser(old(sql).nextUserId, ident) &&
        sql == old(sql).(users := old(sql).users + [u], nextUserId := old(sql).nextUserId + 1)
      ensures userIdentifiersCache == old(userIdentifiersCache)[ident := u.id]
      ensures usersCache == if ident in old(userIdentifiersCache) then old(usersCache)[u.id := u] else old(usersCache)
      ensures webSessionsCache == old(webSessionsCache)
    {
      var found := GetUser(ident);
      if found.Some? {
        u := found.value;
      } else {
        var row := NewUser(sql.nextUserId, ident);
        InsertUserKeepsCaches(sql.users, sql.nextUserId, usersCache, userIdentifiersCache, ident);
        sql := sql.(users := sql.users + [row], nextUserId := sql.nextUserId + 1);
        var again := GetUser(ident);
        u := again.value;
      }
    }

    /** `merge_users`, as in the later revision. */
    method MergeUsers(user: User, other: User) returns (m: User)
      requires Valid()
      modifies this
      ensures Valid()
      ensures m == MergeUser(user, other)
      ensures sql == old(sql).(users := MergedUsers(old(sql).users, user, other),
                               userData := ReparentUserData(old(sql).userData, user.id, other.id))
      ensures usersCache == old(usersCache) - {other.id, user.id}
      ensures userIdentifiersCache == map[]
      ensures webSessionsCache == old(webSessionsCache)
    {
      var data := ReparentUserData(sql.userData, user.id, other.id);
      m := MergeUser(user, other);
      var after := MergedUsers(sql.users, user, other);
      MergeKeepsCoherent(sql, webSessionsCache, usersCache, userIdentifiersCache, user, other);
      sql := sql.(users := after, userData := data);
      // `other.id` is evicted before the table writes and `user.id` after them
      usersCache := usersCache - {other.id, user.id};
      userIdentifiersCache := map[];
    }

    /** `get_auth`: an absent key reads as `None`. */
    function GetAuth(key: string): (r: Option<string>)
      reads this
      ensures r.Some? <==> key in sql.auth
      ensures r.Some? ==> r.value == sql.auth[key]
    {
      if key in sql.auth then Some(sql.auth[key]) else None
    }

    /** `set_auth`: `REPLACE INTO`, so the key ends up holding exactly the value. */
    method SetAuth(key: string, value: string)
      requires Valid()
      modifies this
      ensures Valid()
      ensures sql == old(sql).(auth := old(sql).auth[key := value])
      ensures GetAuth(key) == Some(value)
      ensures webSessionsCache == old(webSessionsCache) && usersCache == old(usersCache)
      ensures userIdentifiersCache == old(userIdentifiersCache)
    {
      sql := sql.(auth := sql.auth[key := value]);
    }

    /** `save_token`: three keys always, the expiry only when there is one. */
    method SaveToken(token: UserAccessToken)
      requires Valid()
      modifies this
      ensures Valid()
      ensures sql == old(sql).(auth := SavedAuth(old(sql).auth, token))
      ensures GetAuth(AccessTokenKey) == Some(token.accessToken)
      ensures GetAuth(RefreshTokenKey) == Some(token.refreshToken)
      ensures GetAuth(CreatedAtKey) == Some(token.createdAt)
      ensures GetAuth(ExpiresAtKey) == if token.expiresAt.Some? then token.expiresAt else old(GetAuth(ExpiresAtKey))
      ensures webSessionsCache == old(webSessionsCache) && usersCache == old(usersCache)
      ensures userIdentifiersCache == old(userIdentifiersCache)
    {
      var auth := sql.auth[AccessTokenKey := token.accessToken];
      auth := auth[RefreshTokenKey := token.refreshToken];
      auth := auth[CreatedAtKey := token.createdAt];
      if token.expiresAt.Some? {
        auth := auth[ExpiresAtKey := token.expiresAt.value];
      }
      sql := sql.(auth := auth);
    }
  }

  /** The `auth` table after `save_token`. */
  function SavedAuth(auth: map<string, string>, token: UserAccessToken): map<string, string> {
    var written := auth[AccessTokenKey := token.accessToken][RefreshTokenKey := token.refreshToken][CreatedAtKey := token.createdAt];
    if token.expiresAt.Some? then written[ExpiresAtKey := token.expiresAt.value] else written
  }

  /** Saving a token without an expiry leaves any earlier expiry in place, so
      the stored expiry may belong to an older token. */
  lemma SaveTokenKeepsOldExpiry(auth: map<string, string>, token: UserAccessToken)
    requires token.expiresAt.None? && ExpiresAtKey in auth
    ensures ExpiresAtKey in SavedAuth(auth, token) && SavedAuth(auth, token)[ExpiresAtKey] == auth[ExpiresAtKey]
  {
  }

  /** Saving touches no key other than the four token keys. */
  lemma SaveTokenKeepsOtherKeys(auth: map<string, string>, token: UserAccessToken, key: string)
    requires key != AccessTokenKey && key != RefreshTokenKey && key != CreatedAtKey && key != ExpiresAtKey
    ensures (key in SavedAuth(auth, token)) == (key in auth)
    ensures key in auth ==> SavedAuth(auth, token)[key] == auth[key]
  {
  }
}
