/** The store of `src/database/mod.rs`: the MySQL tables, the Redis command
    log, and the five in-process caches that sit in front of the tables. */
module Store {
  import opened Wrappers
  import opened Platform
  import opened Models
  import opened Tables

  /** A command sent to Redis. */
  datatype RedisOp = Del(key: string) | SAdd(key: string, members: seq<string>) | Publish(topic: string, payload: string)

  function ChannelSetKey(platform: string): string { "channels:" + platform }
  function ChannelUpdateTopic(platform: string): string { "channels.update." + platform }
  const ChannelListUpdated := "Channel list updated"

  /** The members of the Redis set `key` once every command of the log has run.
      A key no command touched is empty. */
  function SetMembers(log: seq<RedisOp>, key: string): set<string> {
    if log == [] then {}
    else
      var before := SetMembers(log[..|log| - 1], key);
      match log[|log| - 1]
      case Del(k) => if k == key then {} else before
      case SAdd(k, ms) => if k == key then before + (set m | m in ms) else before
      case Publish(_, _) => before
  }

  /** The three commands the channel-set refresh sends for one platform. */
  function RefreshPlatform(platform: string, names: seq<string>): seq<RedisOp> {
    [Del(ChannelSetKey(platform)), SAdd(ChannelSetKey(platform), names),
     Publish(ChannelUpdateTopic(platform), ChannelListUpdated)]
  }

  /** The commands of the refresh over `platforms`, in that order. */
  function RefreshOps(platforms: seq<string>, chs: seq<Channel>): seq<RedisOp> {
    if platforms == [] then []
    else
      var last := platforms[|platforms| - 1];
      RefreshOps(platforms[..|platforms| - 1], chs) + RefreshPlatform(last, NamesOn(chs, last))
  }

  /** The Redis log after `get_or_create_channel`: a new channel's name is
      added to the set `channels:{platform}`; a found channel sends nothing. */
  function RedisAfterCreate(log: seq<RedisOp>, chs: seq<Channel>, platform: string, channel: string): seq<RedisOp> {
    if FindChannel(chs, platform, channel).Some? then log else log + [SAdd(ChannelSetKey(platform), [channel])]
  }

  lemma ChannelSetKeyInjective(p: string, q: string)
    requires ChannelSetKey(p) == ChannelSetKey(q)
    ensures p == q
  {
    assert p == ChannelSetKey(p)[9..] && q == ChannelSetKey(q)[9..];
  }

  lemma SetMembersSnoc(log: seq<RedisOp>, op: RedisOp, key: string)
    ensures SetMembers(log + [op], key) ==
      match op
      case Del(k) => if k == key then {} else SetMembers(log, key)
      case SAdd(k, ms) => if k == key then SetMembers(log, key) + (set m | m in ms) else SetMembers(log, key)
      case Publish(_, _) => SetMembers(log, key)
  {
    assert (log + [op])[..|log|] == log;
  }

  /** One platform's refresh makes its set exactly that platform's channel
      names and touches no other set. */
  lemma RefreshPlatformSets(log: seq<RedisOp>, platform: string, names: seq<string>, key: string)
    ensures SetMembers(log + RefreshPlatform(platform, names), key) ==
      if key == ChannelSetKey(platform) then set m | m in names else SetMembers(log, key)
  {
    var k := ChannelSetKey(platform);
    var l1 := log + [Del(k)];
    var l2 := l1 + [SAdd(k, names)];
    assert log + RefreshPlatform(platform, names) == l2 + [Publish(ChannelUpdateTopic(platform), ChannelListUpdated)];
    SetMembersSnoc(log, Del(k), key);
    SetMembersSnoc(l1, SAdd(k, names), key);
    SetMembersSnoc(l2, Publish(ChannelUpdateTopic(platform), ChannelListUpdated), key);
  }

  lemma RefreshOpsSnoc(platforms: seq<string>, p: string, chs: seq<Channel>)
    ensures RefreshOps(platforms + [p], chs) == RefreshOps(platforms, chs) + RefreshPlatform(p, NamesOn(chs, p))
  {
    assert (platforms + [p])[..|platforms|] == platforms;
  }

  /** After the refresh, the set of every refreshed platform holds exactly its
      channel names. */
  lemma {:induction false} RefreshSetsListed(log: seq<RedisOp>, platforms: seq<string>, chs: seq<Channel>, p: string)
    requires p in platforms
    ensures SetMembers(log + RefreshOps(platforms, chs), ChannelSetKey(p)) == set n | n in NamesOn(chs, p)
  {
    var init := platforms[..|platforms| - 1];
    var last := platforms[|platforms| - 1];
    assert platforms == init + [last];
    RefreshOpsSnoc(init, last, chs);
    assert log + RefreshOps(platforms, chs) == (log + RefreshOps(init, chs)) + RefreshPlatform(last, NamesOn(chs, last));
    RefreshPlatformSets(log + RefreshOps(init, chs), last, NamesOn(chs, last), ChannelSetKey(p));
    if p != last {
      assert p in init;
      RefreshSetsListed(log, init, chs, p);
      if ChannelSetKey(p) == ChannelSetKey(last) { ChannelSetKeyInjective(p, last); }
    }
  }

  /** ... and every set of another key is as it was. */
  lemma {:induction false} RefreshSetsOthers(log: seq<RedisOp>, platforms: seq<string>, chs: seq<Channel>, key: string)
    requires forall p :: p in platforms ==> key != ChannelSetKey(p)
    ensures SetMembers(log + RefreshOps(platforms, chs), key) == SetMembers(log, key)
  {
    if platforms != [] {
      var init := platforms[..|platforms| - 1];
      var last := platforms[|platforms| - 1];
      assert platforms == init + [last];
      RefreshOpsSnoc(init, last, chs);
      assert log + RefreshOps(platforms, chs) == (log + RefreshOps(init, chs)) + RefreshPlatform(last, NamesOn(chs, last));
      assert last in platforms;
      RefreshPlatformSets(log + RefreshOps(init, chs), last, NamesOn(chs, last), key);
      assert forall p :: p in init ==> p in platforms;
      RefreshSetsOthers(log, init, chs, key);
    } else {
      assert log + RefreshOps(platforms, chs) == log;
    }
  }

  /** Every cache entry agrees with the table behind it, so a lookup answers
      the same whether or not it hits the cache. */
  ghost predicate Coherent(sql: SqlTables, webSessionsCache: map<string, WebSession>, usersCache: map<nat, User>,
                           userIdentifiersCache: map<UserIdentifier, nat>, prefixesCache: map<nat, Option<string>>,
                           channelsCache: map<ChannelIdentifier, Channel>)
  {
    WellFormed(sql) &&
    UsersCacheCoherent(sql.users, usersCache) &&
    IdentifiersCacheCoherent(sql.users, userIdentifiersCache) &&
    PrefixesCacheCoherent(sql.prefixes, prefixesCache) &&
    ChannelsCacheCoherent(sql.channels, channelsCache) &&
    SessionsCacheCoherent(sql.webSessions, webSessionsCache)
  }

  /** A cached prefix is the table's, and a cached `None` means the channel has none. */
  ghost predicate PrefixesCacheCoherent(prefixes: map<nat, string>, cache: map<nat, Option<string>>) {
    forall c :: c in cache ==> cache[c] == (if c in prefixes then Some(prefixes[c]) else None)
  }

  ghost predicate ChannelsCacheCoherent(channels: seq<Channel>, cache: map<ChannelIdentifier, Channel>) {
    forall ci :: ci in cache ==> ChannelLookup(channels, ci) == Some(cache[ci])
  }

  /** `merge_users` keeps every cache coherent once both ids are evicted and
      the identifier cache is emptied. */
  lemma MergeKeepsCoherent(sql: SqlTables, ws: map<string, WebSession>, uc: map<nat, User>,
                           uic: map<UserIdentifier, nat>, pc: map<nat, Option<string>>,
                           cc: map<ChannelIdentifier, Channel>, user: User, other: User)
    requires Coherent(sql, ws, uc, uic, pc, cc)
    ensures Coherent(sql.(users := MergedUsers(sql.users, user, other),
                          userData := ReparentUserData(sql.userData, user.id, other.id)),
                     ws, uc - {other.id, user.id}, map[], pc, cc)
  {
    MergeKeepsUsersCache(sql.users, sql.nextUserId, uc, user, other);
  }

  /** A cached id is the id of the row the identifier finds, so looking it
      up by id finds that same row. */
  lemma CachedIdentifierFound(users: seq<User>, uic: map<UserIdentifier, nat>, ident: UserIdentifier)
    requires IdsIncreasing(users) && IdentifiersCacheCoherent(users, uic) && ident in uic
    ensures FindUser(users, ident).Some? && FindUser(users, ident).value.id == uic[ident]
    ensures FindUserById(users, uic[ident]) == FindUser(users, ident)
  {
    FindUserByIdOfMember(users, FindUser(users, ident).value);
  }

  /** A cached row is the row the table holds under that id. */
  lemma CachedUserFound(users: seq<User>, uc: map<nat, User>, id: nat)
    requires UsersCacheCoherent(users, uc) && id in uc
    ensures FindUserById(users, id) == Some(uc[id])
  {
  }

  /** Caching a row found by its id keeps the caches coherent. */
  lemma CacheUserKeepsCoherent(sql: SqlTables, ws: map<string, WebSession>, uc: map<nat, User>,
                               uic: map<UserIdentifier, nat>, pc: map<nat, Option<string>>,
                               cc: map<ChannelIdentifier, Channel>, id: nat, u: User)
    requires Coherent(sql, ws, uc, uic, pc, cc) && FindUserById(sql.users, id) == Some(u)
    ensures Coherent(sql, ws, uc[id := u], uic, pc, cc)
  {
  }

  /** Caching the id of the row found for an identifier keeps the caches coherent. */
  lemma CacheIdentifierKeepsCoherent(sql: SqlTables, ws: map<string, WebSession>, uc: map<nat, User>,
                                     uic: map<UserIdentifier, nat>, pc: map<nat, Option<string>>,
                                     cc: map<ChannelIdentifier, Channel>, ident: UserIdentifier)
    requires Coherent(sql, ws, uc, uic, pc, cc) && FindUser(sql.users, ident).Some?
    ensures Coherent(sql, ws, uc, uic[ident := FindUser(sql.users, ident).value.id], pc, cc)
  {
  }

  /** The groups after one channel more: its name goes at the end of its
      platform's group, which starts empty the first time it is seen. */
  function GroupsAfter(groups: map<string, seq<string>>, c: Channel): map<string, seq<string>> {
    groups[c.platform := (if c.platform in groups then groups[c.platform] else []) + [c.channel]]
  }

  /** The platforms after one channel more: its platform is added the first time it is seen. */
  function PlatformsAfter(platforms: seq<string>, groups: map<string, seq<string>>, c: Channel): seq<string> {
    if c.platform in groups then platforms else platforms + [c.platform]
  }

  lemma GroupPlatformsStep(chs: seq<Channel>, c: Channel, platforms: seq<string>, groups: map<string, seq<string>>)
    requires platforms == PlatformsOf(chs)
    requires forall p :: p in groups <==> p in platforms
    ensures PlatformsAfter(platforms, groups, c) == PlatformsOf(chs + [c])
  {
    PlatformsSnoc(chs, c);
  }

  lemma GroupKeysStep(c: Channel, platforms: seq<string>, groups: map<string, seq<string>>)
    requires forall p :: p in groups <==> p in platforms
    ensures forall p :: p in GroupsAfter(groups, c) <==> p in PlatformsAfter(platforms, groups, c)
  {
  }

  lemma GroupNamesStep(chs: seq<Channel>, c: Channel, platforms: seq<string>, groups: map<string, seq<string>>)
    requires platforms == PlatformsOf(chs)
    requires forall p :: p in groups <==> p in platforms
    requires forall p :: p in groups ==> groups[p] == NamesOn(chs, p)
    ensures forall p :: p in GroupsAfter(groups, c) ==> GroupsAfter(groups, c)[p] == NamesOn(chs + [c], p)
  {
    if c.platform !in groups {
      NamesOnAbsent(chs, c.platform);
    }
    forall p | p in GroupsAfter(groups, c) ensures GroupsAfter(groups, c)[p] == NamesOn(chs + [c], p) {
      NamesSnoc(chs, c, p);
    }
  }

  class Database {
    /** What the connection pool reaches. */
    var sql: SqlTables
    /** Every command sent over the Redis connection, oldest first. */
    var redis: seq<RedisOp>
    var webSessionsCache: map<string, WebSession>
    var usersCache: map<nat, User>
    var userIdentifiersCache: map<UserIdentifier, nat>
    var prefixesCache: map<nat, Option<string>>
    /** Keyed by the channel identifier itself (the code keys by its `to_string`). */
    var channelsCache: map<ChannelIdentifier, Channel>

    /** Every cache entry agrees with the table behind it, so a lookup answers
        the same whether or not it hits the cache. */
    ghost predicate Valid()
      reads this
    {
      Coherent(sql, webSessionsCache, usersCache, userIdentifiersCache, prefixesCache, channelsCache)
    }

    /** `connect`: an existing database, every cache empty. */
    constructor (tables: SqlTables, log: seq<RedisOp>)
      requires WellFormed(tables)
      ensures Valid()
      ensures sql == tables && redis == log
      ensures webSessionsCache == map[] && usersCache == map[] && userIdentifiersCache == map[]
      ensures prefixesCache == map[] && channelsCache == map[]
    {
      sql := tables;
      redis := log;
      webSessionsCache := map[];
      usersCache := map[];
      userIdentifiersCache := map[];
      prefixesCache := map[];
      channelsCache := map[];
    }

    /** The periodic clear of `start_cron`; the prefix and channel caches are
        never cleared. */
    method ClearCaches()
      requires Valid()
      modifies this
      ensures Valid()
      ensures webSessionsCache == map[] && usersCache == map[] && userIdentifiersCache == map[]
      ensures sql == old(sql) && redis == old(redis)
      ensures prefixesCache == old(prefixesCache) && channelsCache == old(channelsCache)
    {
      webSessionsCache := map[];
      usersCache := map[];
      userIdentifiersCache := map[];
    }

    // ------------------------------------------------------------ channels

    /** `get_channel`: only found channels are cached. */
    method GetChannel(ident: ChannelIdentifier) returns (r: Option<Channel>)
      requires Valid()
      modifies this
      ensures Valid()
      ensures r == ChannelLookup(sql.channels, ident)
      ensures channelsCache == if r.Some? then old(channelsCache)[ident := r.value] else old(channelsCache)
      ensures sql == old(sql) && redis == old(redis)
      ensures webSessionsCache == old(webSessionsCache) && usersCache == old(usersCache)
      ensures userIdentifiersCache == old(userIdentifiersCache) && prefixesCache == old(prefixesCache)
    {
      match ident.ChannelName() {
        case None =>
          r := None;
        case Some(name) =>
          if ident in channelsCache {
            r := Some(channelsCache[ident]);
          } else {
            r := FindChannel(sql.channels, ident.PlatformName().value, name);
            if r.Some? {
              channelsCache := channelsCache[ident := r.value];
            }
          }
      }
    }

    /** `get_or_create_channel`: no platform, no channel.  A missing channel
        string reads as the empty name; a new row is added to the set
        `channels:{platform}`.  The channel cache is neither read nor written. */
    method GetOrCreateChannel(ident: ChannelIdentifier) returns (r: Option<Channel>)
      requires Valid()
      modifies this
      ensures Valid()
      ensures r.None? <==> ident.PlatformName().None?
      ensures ident.PlatformName().None? ==> sql == old(sql) && redis == old(redis)
      ensures ident.PlatformName().Some? ==>
        var platform := ident.PlatformName().value;
        var name := ident.ChannelName().GetOr("");
        r.value.platform == platform && r.value.channel == name && r.value in sql.channels &&
        (if FindChannel(old(sql).channels, platform, name).Some?
         then r == FindChannel(old(sql).channels, platform, name) && sql == old(sql) && redis == old(redis)
         else r.value == Channel(|old(sql).channels| + 1, platform, name) &&
              sql == old(sql).(channels := old(sql).channels + [r.value]) &&
              redis == old(redis) + [SAdd(ChannelSetKey(platform), [name])])
      ensures ident.PlatformName().Some? ==>
        var platform := ident.PlatformName().value;
        var name := ident.ChannelName().GetOr("");
        sql.channels == ChannelsAfterCreate(old(sql).channels, platform, name) &&
        r.value.id == CreatedChannelId(old(sql).channels, platform, name) &&
        redis == RedisAfterCreate(old(redis), old(sql).channels, platform, name)
      ensures webSessionsCache == old(webSessionsCache) && usersCache == old(usersCache)
      ensures userIdentifiersCache == old(userIdentifiersCache) && prefixesCache == old(prefixesCache)
      ensures channelsCache == old(channelsCache)
    {
      match ident.PlatformName() {
        case None =>
          r := None;
        case Some(platform) =>
          var name := ident.ChannelName().GetOr("");
          var existing := FindChannel(sql.channels, platform, name);
          if existing.Some? {
            r := existing;
          } else {
            var row := Channel(|sql.channels| + 1, platform, name);
            InsertChannelWellFormed(sql.channels, platform, name);
            forall ci | ci in channelsCache
              ensures ChannelLookup(sql.channels + [row], ci) == Some(channelsCache[ci])
            {
              FindChannelAppend(sql.channels, row, ci.PlatformName().value, ci.ChannelName().value);
            }
            sql := sql.(channels := sql.channels + [row]);
            redis := redis + [SAdd(ChannelSetKey(platform), [name])];
            FindChannelAppend(old(sql).channels, row, platform, name);
            r := FindChannel(sql.channels, platform, name);
          }
      }
    }

    /** `load_channels_into_redis`: the channels grouped by platform in id
        order, then per platform a `DEL`, an `SADD` of its names and one
        `PUBLISH`.  Platforms go in order of first appearance. */
    method LoadChannelsIntoRedis()
      requires Valid()
      modifies this
      ensures Valid()
      ensures redis == old(redis) + RefreshOps(PlatformsOf(sql.channels), sql.channels)
      ensures forall p :: p in PlatformsOf(sql.channels) ==>
        SetMembers(redis, ChannelSetKey(p)) == set n | n in NamesOn(sql.channels, p)
      ensures forall key :: (forall p :: p in PlatformsOf(sql.channels) ==> key != ChannelSetKey(p)) ==>
        SetMembers(redis, key) == SetMembers(old(redis), key)
      ensures sql == old(sql)
      ensures webSessionsCache == old(webSessionsCache) && usersCache == old(usersCache)
      ensures userIdentifiersCache == old(userIdentifiersCache) && prefixesCache == old(prefixesCache)
      ensures channelsCache == old(channelsCache)
    {
      var chs := sql.channels;
      var platforms, groups := GroupByPlatform(chs);
      var sent := RefreshCommands(platforms, groups, chs);
      redis := redis + sent;
      forall p | p in platforms
        ensures SetMembers(redis, ChannelSetKey(p)) == set n | n in NamesOn(chs, p)
      {
        RefreshSetsListed(old(redis), platforms, chs, p);
      }
      forall key | forall p :: p in platforms ==> key != ChannelSetKey(p)
        ensures SetMembers(redis, key) == SetMembers(old(redis), key)
      {
        RefreshSetsOthers(old(redis), platforms, chs, key);
      }
    }

    /** The second loop of `load_channels_into_redis`: the commands sent for
        each entry of the grouping map. */
    static method RefreshCommands(platforms: seq<string>, groups: map<string, seq<string>>, chs: seq<Channel>)
      returns (sent: seq<RedisOp>)
      requires forall p :: p in platforms ==> p in groups && groups[p] == NamesOn(chs, p)
      ensures sent == RefreshOps(platforms, chs)
    {
      sent := [];
      var k := 0;
      while k < |platforms|
        invariant 0 <= k <= |platforms|
        invariant sent == RefreshOps(platforms[..k], chs)
      {
        var platform := platforms[k];
        sent := sent + RefreshPlatform(platform, groups[platform]);
        assert platforms[..k + 1] == platforms[..k] + [platform];
        RefreshOpsSnoc(platforms[..k], platform, chs);
        k := k + 1;
      }
      assert platforms[..k] == platforms;
    }

    /** The `HashMap` of `load_channels_into_redis`, filled channel by channel. */
    static method GroupByPlatform(chs: seq<Channel>) returns (platforms: seq<string>, groups: map<string, seq<string>>)
      ensures platforms == PlatformsOf(chs)
      ensures forall p :: p in groups <==> p in platforms
      ensures forall p :: p in groups ==> groups[p] == NamesOn(chs, p)
    {
      platforms := [];
      groups := map[];
      var i := 0;
      while i < |chs|
        invariant 0 <= i <= |chs|
        invariant platforms == PlatformsOf(chs[..i])
        invariant forall p :: p in groups <==> p in platforms
        invariant forall p :: p in groups ==> groups[p] == NamesOn(chs[..i], p)
      {
        var c := chs[i];
        assert chs[..i + 1] == chs[..i] + [c];
        GroupPlatformsStep(chs[..i], c, platforms, groups);
        GroupKeysStep(c, platforms, groups);
        GroupNamesStep(chs[..i], c, platforms, groups);
        var names := [];
        if c.platform in groups {
          names := groups[c.platform];
        } else {
          platforms := platforms + [c.platform];
        }
        groups := groups[c.platform := names + [c.channel]];
        i := i + 1;
      }
      assert chs[..i] == chs;
    }

    // ------------------------------------------------------------ commands

    /** `get_command`, answered from the tables. */
    function GetCommand(ident: ChannelIdentifier, name: string): Option<Command>
      requires Valid()
      reads this
    {
      CommandLookup(sql, ident, name)
    }

    /** `add_command`: a builtin name is `InvalidValue` and inserts nothing; an
        existing `(channel, name)` key breaks the unique index. */
    method AddCommand(cmd: Command) returns (r: Result<(), DatabaseError>)
      requires Valid()
      modifies this
      ensures Valid()
      ensures cmd.name in BuiltinCommands ==> r == Err(InvalidValue)
      ensures cmd.name !in BuiltinCommands ==>
        r == if (cmd.channelId, cmd.name) in old(sql).commands then Err(UniqueViolation) else Ok(())
      ensures sql == if r.Ok? then old(sql).(commands := old(sql).commands[(cmd.channelId, cmd.name) := cmd]) else old(sql)
      ensures NoBuiltinNames(old(sql).commands) ==> NoBuiltinNames(sql.commands)
      ensures redis == old(redis)
      ensures webSessionsCache == old(webSessionsCache) && usersCache == old(usersCache)
      ensures userIdentifiersCache == old(userIdentifiersCache) && prefixesCache == old(prefixesCache)
      ensures channelsCache == old(channelsCache)
    {
      if cmd.name in BuiltinCommands {
        r := Err(InvalidValue);
      } else if (cmd.channelId, cmd.name) in sql.commands {
        r := Err(UniqueViolation);
      } else {
        sql := sql.(commands := sql.commands[(cmd.channelId, cmd.name) := cmd]);
        r := Ok(());
      }
    }

    /** `add_command_to_channel`: the channel is found or created, and the new
        command has no permissions and a cooldown of 5.  Without a platform the
        `unwrap` on the channel panics. */
    method AddCommandToChannel(ident: ChannelIdentifier, trigger: string, action: string)
      returns (r: Outcome<Result<(), DatabaseError>>)
      requires Valid()
      modifies this
      ensures Valid()
      ensures r.Panicked? <==> ident.PlatformName().None?
      ensures r.Panicked? ==> r == Panicked(UnwrapNone) && sql == old(sql)
      ensures redis == if r.Panicked? then old(redis)
                       else RedisAfterCreate(old(redis), old(sql).channels, ident.PlatformName().value, ident.ChannelName().GetOr(""))
      ensures r.Returned? ==>
        var platform := ident.PlatformName().value;
        var name := ident.ChannelName().GetOr("");
        var id := CreatedChannelId(old(sql).channels, platform, name);
        sql.channels == ChannelsAfterCreate(old(sql).channels, platform, name) &&
        (trigger in BuiltinCommands ==> r.value == Err(InvalidValue)) &&
        (trigger !in BuiltinCommands ==>
          r.value == if (id, trigger) in old(sql).commands then Err(UniqueViolation) else Ok(())) &&
        sql.commands == if r.value.Ok? then old(sql).commands[(id, trigger) := Command(id, trigger, action, None, 5)]
                        else old(sql).commands
      ensures r == Returned(Ok(())) && ident.ChannelName().Some? ==>
        GetCommand(ident, trigger).Some? &&
        GetCommand(ident, trigger).value == Command(GetCommand(ident, trigger).value.channelId, trigger, action, None, 5)
      ensures ident.ChannelName().None? ==> GetCommand(ident, trigger).None?
      ensures NoBuiltinNames(old(sql).commands) ==> NoBuiltinNames(sql.commands)
      ensures sql.users == old(sql).users && sql.userData == old(sql).userData && sql.prefixes == old(sql).prefixes
      ensures sql.filters == old(sql).filters && sql.webSessions == old(sql).webSessions && sql.auth == old(sql).auth
      ensures sql.nextUserId == old(sql).nextUserId
      ensures webSessionsCache == old(webSessionsCache) && usersCache == old(usersCache)
      ensures userIdentifiersCache == old(userIdentifiersCache) && prefixesCache == old(prefixesCache)
      ensures channelsCache == old(channelsCache)
    {
      var ch := GetOrCreateChannel(ident);
      if ch.None? {
        r := Panicked(UnwrapNone);
      } else {
        var res := AddCommand(Command(ch.value.id, trigger, action, None, 5));
        r := Returned(res);
        if ident.ChannelName().Some? {
          CommandLookupVia(sql, ident, ch.value, trigger);
        }
      }
    }

    /** `delete_command`: removes the row under the key; `InvalidValue` exactly
        when there was none. */
    method DeleteCommand(channelId: nat, name: string) returns (r: Result<(), DatabaseError>)
      requires Valid()
      modifies this
      ensures Valid()
      ensures r == if (channelId, name) in old(sql).commands then Ok(()) else Err(InvalidValue)
      ensures sql == old(sql).(commands := old(sql).commands - {(channelId, name)})
      ensures redis == old(redis)
      ensures webSessionsCache == old(webSessionsCache) && usersCache == old(usersCache)
      ensures userIdentifiersCache == old(userIdentifiersCache) && prefixesCache == old(prefixesCache)
      ensures channelsCache == old(channelsCache)
    {
      var affected := if (channelId, name) in sql.commands then 1 else 0;
      sql := sql.(commands := sql.commands - {(channelId, name)});
      if affected == 0 {
        r := Err(InvalidValue);
      } else {
        r := Ok(());
      }
    }

    /** `delete_command_from_channel`: like the insert, it goes through
        `get_or_create_channel`, so a delete may create the channel. */
    method DeleteCommandFromChannel(ident: ChannelIdentifier, name: string)
      returns (r: Outcome<Result<(), DatabaseError>>)
      requires Valid()
      modifies this
      ensures Valid()
      ensures r.Panicked? <==> ident.PlatformName().None?
      ensures r.Panicked? ==> r == Panicked(UnwrapNone) && sql == old(sql)
      ensures redis == if r.Panicked? then old(redis)
                       else RedisAfterCreate(old(redis), old(sql).channels, ident.PlatformName().value, ident.ChannelName().GetOr(""))
      ensures r.Returned? ==>
        var platform := ident.PlatformName().value;
        var channel := ident.ChannelName().GetOr("");
        var id := CreatedChannelId(old(sql).channels, platform, channel);
        sql.channels == ChannelsAfterCreate(old(sql).channels, platform, channel) &&
        r.value == (if (id, name) in old(sql).commands then Ok(()) else Err(InvalidValue)) &&
        sql.commands == old(sql).commands - {(id, name)}
      ensures r.Returned? && ident.ChannelName().Some? ==> GetCommand(ident, name).None?
      ensures sql.users == old(sql).users && sql.userData == old(sql).userData && sql.prefixes == old(sql).prefixes
      ensures sql.filters == old(sql).filters && sql.webSessions == old(sql).webSessions && sql.auth == old(sql).auth
      ensures sql.nextUserId == old(sql).nextUserId
      ensures webSessionsCache == old(webSessionsCache) && usersCache == old(usersCache)
      ensures userIdentifiersCache == old(userIdentifiersCache) && prefixesCache == old(prefixesCache)
      ensures channelsCache == old(channelsCache)
    {
      var ch := GetOrCreateChannel(ident);
      if ch.None? {
        r := Panicked(UnwrapNone);
      } else {
        var res := DeleteCommand(ch.value.id, name);
        r := Returned(res);
        if ident.ChannelName().Some? {
          CommandLookupVia(sql, ident, ch.value, name);
        }
      }
    }

    // --------------------------------------------------------------- users

    /** `get_user_by_id`: only found users are cached. */
    method GetUserById(id: nat) returns (r: Option<User>)
      requires Valid()
      modifies this
      ensures Valid()
      ensures r == FindUserById(sql.users, id)
      ensures usersCache == if r.Some? then old(usersCache)[id := r.value] else old(usersCache)
      ensures sql == old(sql) && redis == old(redis)
      ensures webSessionsCache == old(webSessionsCache) && userIdentifiersCache == old(userIdentifiersCache)
      ensures prefixesCache == old(prefixesCache) && channelsCache == old(channelsCache)
    {
      if id in usersCache {
        CachedUserFound(sql.users, usersCache, id);
        UpdateWithSame(usersCache, id);
        r := Some(usersCache[id]);
      } else {
        r := FindUserById(sql.users, id);
        if r.Some? {
          CacheUserKeepsCoherent(sql, webSessionsCache, usersCache, userIdentifiersCache, prefixesCache, channelsCache, id, r.value);
          usersCache := usersCache[id := r.value];
        }
      }
    }

    /** `get_user`: an identifier cache hit defers to `get_user_by_id`; on a
        miss the first row carrying the identifier is looked up, and its id is
        cached only if there is one. */
    method GetUser(ident: UserIdentifier) returns (r: Option<User>)
      requires Valid()
      modifies this
      ensures Valid()
      ensures r == FindUser(sql.users, ident)
      ensures userIdentifiersCache == if r.Some? then old(userIdentifiersCache)[ident := r.value.id] else old(userIdentifiersCache)
      ensures usersCache == if ident in old(userIdentifiersCache) then old(usersCache)[r.value.id := r.value] else old(usersCache)
      ensures sql == old(sql) && redis == old(redis)
      ensures webSessionsCache == old(webSessionsCache)
      ensures prefixesCache == old(prefixesCache) && channelsCache == old(channelsCache)
    {
      if ident in userIdentifiersCache {
        var id := userIdentifiersCache[ident];
        UpdateWithSame(userIdentifiersCache, ident);
        CachedIdentifierFound(sql.users, userIdentifiersCache, ident);
        r := GetUserById(id);
      } else {
        r := FindUser(sql.users, ident);
        if r.Some? {
          CacheIdentifierKeepsCoherent(sql, webSessionsCache, usersCache, userIdentifiersCache, prefixesCache, channelsCache, ident);
          userIdentifiersCache := userIdentifiersCache[ident := r.value.id];
        }
      }
    }

    /** `get_or_create_user`: the existing user, or a new row whose only set
        identifier column is the given one.  The `unwrap` on the second lookup
        never panics. */
    method GetOrCreateUser(ident: UserIdentifier) returns (u: User)
      requires Valid()
      modifies this
      ensures Valid()
      ensures HasIdentifier(u, ident) && u in sql.users && FindUser(sql.users, ident) == Some(u)
      ensures FindUser(old(sql).users, ident).Some? ==> u == FindUser(old(sql).users, ident).value && sql == old(sql)
      ensures FindUser(old(sql).users, ident).None? ==>
        u == NewUser(old(sql).nextUserId, ident) &&
        sql == old(sql).(users := old(sql).users + [u], nextUserId := old(sql).nextUserId + 1)
      ensures userIdentifiersCache == old(userIdentifiersCache)[ident := u.id]
      ensures usersCache == if ident in old(userIdentifiersCache) then old(usersCache)[u.id := u] else old(usersCache)
      ensures redis == old(redis) && webSessionsCache == old(webSessionsCache)
      ensures prefixesCache == old(prefixesCache) && channelsCache == old(channelsCache)
    {
      var found := GetUser(ident);
      if found.Some? {
        u := found.value;
      } else {
        var row := NewUser(sql.nextUserId, ident);
        InsertUserKeepsCaches(sql.users, sql.nextUserId, usersCache, userIdentifiersCache, ident);
        sql := sql.(users := sql.users + [row], nextUserId := sql.nextUserId + 1);
        var again := GetUser(ident);
        u := again.value;
      }
    }

    /** `merge_users`: `other`'s data rows are copied onto `user` (`other`
        wins per name), `other`'s row is deleted, `user`'s row is overwritten
        by the merge, both ids leave the user cache and the identifier cache
        is emptied. */
    method MergeUsers(user: User, other: User) returns (m: User)
      requires Valid()
      modifies this
      ensures Valid()
      ensures m == MergeUser(user, other)
      ensures sql == old(sql).(users := MergedUsers(old(sql).users, user, other),
                               userData := ReparentUserData(old(sql).userData, user.id, other.id))
      ensures usersCache == old(usersCache) - {other.id, user.id}
      ensures userIdentifiersCache == map[]
      ensures redis == old(redis) && webSessionsCache == old(webSessionsCache)
      ensures prefixesCache == old(prefixesCache) && channelsCache == old(channelsCache)
    {
      var data := ReparentUserData(sql.userData, user.id, other.id);
      m := MergeUser(user, other);
      var after := MergedUsers(sql.users, user, other);
      var tables := sql.(users := after, userData := data);
      // the code evicts `other.id` before the table writes and `user.id` after them
      var users := usersCache - {other.id, user.id};
      MergeKeepsCoherent(sql, webSessionsCache, usersCache, userIdentifiersCache, prefixesCache, channelsCache, user, other);
      assert Coherent(tables, webSessionsCache, users, map[], prefixesCache, channelsCache);
      sql, usersCache, userIdentifiersCache := tables, users, map[];
    }

    // ------------------------------------------------------- other lookups

    /** `get_prefix`: the answer is cached even when there is no prefix. */
    method GetPrefix(channelId: nat) returns (r: Option<string>)
      requires Valid()
      modifies this
      ensures Valid()
      ensures r == if channelId in sql.prefixes then Some(sql.prefixes[channelId]) else None
      ensures prefixesCache == old(prefixesCache)[channelId := r]
      ensures sql == old(sql) && redis == old(redis)
      ensures webSessionsCache == old(webSessionsCache) && usersCache == old(usersCache)
      ensures userIdentifiersCache == old(userIdentifiersCache) && channelsCache == old(channelsCache)
    {
      if channelId in prefixesCache {
        r := prefixesCache[channelId];
      } else {
        r := if channelId in sql.prefixes then Some(sql.prefixes[channelId]) else None;
        prefixesCache := prefixesCache[channelId := r];
      }
    }

    /** `get_filters_in_channel`: an unknown channel is `InvalidValue`. */
    method GetFiltersInChannel(ident: ChannelIdentifier) returns (r: Result<seq<Filter>, DatabaseError>)
      requires Valid()
      modifies this
      ensures Valid()
      ensures ChannelLookup(sql.channels, ident).None? ==> r == Err(InvalidValue)
      ensures ChannelLookup(sql.channels, ident).Some? ==>
        r == Ok(FiltersOf(sql.filters, ChannelLookup(sql.channels, ident).value.id))
      ensures channelsCache == if ChannelLookup(sql.channels, ident).Some?
        then old(channelsCache)[ident := ChannelLookup(sql.channels, ident).value] else old(channelsCache)
      ensures sql == old(sql) && redis == old(redis)
      ensures webSessionsCache == old(webSessionsCache) && usersCache == old(usersCache)
      ensures userIdentifiersCache == old(userIdentifiersCache) && prefixesCache == old(prefixesCache)
    {
      var ch := GetChannel(ident);
      if ch.None? {
        r := Err(InvalidValue);
      } else {
        r := Ok(FiltersOf(sql.filters, ch.value.id));
      }
    }

    /** `get_web_session`: only found sessions are cached. */
    method GetWebSession(sessionId: string) returns (r: Option<WebSession>)
      requires Valid()
      modifies this
      ensures Valid()
      ensures r == if sessionId in sql.webSessions then Some(sql.webSessions[sessionId]) else None
      ensures webSessionsCache == if r.Some? then old(webSessionsCache)[sessionId := r.value] else old(webSessionsCache)
      ensures sql == old(sql) && redis == old(redis)
      ensures usersCache == old(usersCache) && userIdentifiersCache == old(userIdentifiersCache)
      ensures prefixesCache == old(prefixesCache) && channelsCache == old(channelsCache)
    {
      if sessionId in webSessionsCache {
        r := Some(webSessionsCache[sessionId]);
      } else if sessionId in sql.webSessions {
        r := Some(sql.webSessions[sessionId]);
        webSessionsCache := webSessionsCache[sessionId := r.value];
      } else {
        r := None;
      }
    }

    /** `remove_web_session`: the row goes first, then the cache entry, so no
        later lookup can find the session. */
    method RemoveWebSession(sessionId: string)
      requires Valid()
      modifies this
      ensures Valid()
      ensures sql == old(sql).(webSessions := old(sql).webSessions - {sessionId})
      ensures webSessionsCache == old(webSessionsCache) - {sessionId}
      ensures redis == old(redis)
      ensures usersCache == old(usersCache) && userIdentifiersCache == old(userIdentifiersCache)
      ensures prefixesCache == old(prefixesCache) && channelsCache == old(channelsCache)
    {
      sql := sql.(webSessions := sql.webSessions - {sessionId});
      webSessionsCache := webSessionsCache - {sessionId};
    }
  }
}
