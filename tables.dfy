/** The relational tables as values, with the queries and updates the store
    runs against them.  Row order is insertion order: ids are auto-increment
    and rows are only ever deleted, so the first row of a query is the one
    with the smallest id. */
module Tables {
  import opened Wrappers
  import opened Platform
  import opened Models

  /** The contents of the MySQL database, one field per table. */
  datatype SqlTables = SqlTables(
    users: seq<User>,
    nextUserId: nat,               // the auto-increment counter of `users`
    channels: seq<Channel>,
    commands: map<(nat, string), Command>,
    userData: map<(nat, string), string>,
    prefixes: map<nat, string>,
    filters: seq<Filter>,
    webSessions: map<string, WebSession>,
    auth: map<string, string>)

  /** What the schema and the store's own writes keep true of the tables. */
  ghost predicate WellFormed(t: SqlTables) {
    IdsIncreasing(t.users) && IdsBelow(t.users, t.nextUserId) &&
    ChannelsWellFormed(t.channels) && CommandsKeyed(t.commands)
  }

  // ---------------------------------------------------------------- users

  ghost predicate IdsIncreasing(users: seq<User>) {
    forall i, j :: 0 <= i < j < |users| ==> users[i].id < users[j].id
  }

  /** The auto-increment counter is ahead of every id in the table. */
  ghost predicate IdsBelow(users: seq<User>, next: nat) {
    forall u :: u in users ==> u.id < next
  }

  /** No identifier is carried by two different rows. */
  ghost predicate IdentifiersUnique(users: seq<User>) {
    forall u, v, ident :: u in users && v in users && HasIdentifier(u, ident) && HasIdentifier(v, ident) ==> u == v
  }

  /** `users.filter(<column>.eq(Some(value))).first()`. */
  function FindUser(users: seq<User>, ident: UserIdentifier): (r: Option<User>)
    ensures r.Some? ==> r.value in users && HasIdentifier(r.value, ident)
    ensures r.None? <==> forall u :: u in users ==> !HasIdentifier(u, ident)
  {
    if users == [] then None
    else if HasIdentifier(users[0], ident) then Some(users[0])
    else FindUser(users[1..], ident)
  }

  /** `users.filter(id.eq(user_id)).first()`. */
  function FindUserById(users: seq<User>, id: nat): (r: Option<User>)
    ensures r.Some? ==> r.value in users && r.value.id == id
    ensures r.None? <==> forall u :: u in users ==> u.id != id
  {
    if users == [] then None
    else if users[0].id == id then Some(users[0])
    else FindUserById(users[1..], id)
  }

  /** `delete(users.filter(id.eq(id)))`. */
  function DeleteUser(users: seq<User>, id: nat): (r: seq<User>)
    ensures forall u :: u in r <==> u in users && u.id != id
  {
    if users == [] then []
    else if users[0].id == id then DeleteUser(users[1..], id)
    else [users[0]] + DeleteUser(users[1..], id)
  }

  /** `update(users.filter(id.eq(id))).set(row)`. */
  function UpdateUser(users: seq<User>, id: nat, row: User): (r: seq<User>)
    requires row.id == id
    ensures |r| == |users|
    ensures forall i :: 0 <= i < |r| ==> r[i].id == users[i].id
    ensures forall v :: v in r ==> v == row || (v in users && v.id != id)
    ensures forall v :: v in users ==> (if v.id == id then row in r else v in r)
  {
    if users == [] then []
    else [if users[0].id == id then row else users[0]] + UpdateUser(users[1..], id, row)
  }

  /** The users table after `merge_users(user, other)`: `other`'s row is
      deleted, then the row with `user`'s id is overwritten by the merge. */
  function MergedUsers(users: seq<User>, user: User, other: User): seq<User> {
    UpdateUser(DeleteUser(users, other.id), user.id, MergeUser(user, other))
  }

  /** `first()` really is the earliest matching row. */
  lemma {:induction false} FindUserIsFirst(users: seq<User>, ident: UserIdentifier)
    requires FindUser(users, ident).Some?
    ensures exists k :: 0 <= k < |users| && users[k] == FindUser(users, ident).value &&
                        forall j :: 0 <= j < k ==> !HasIdentifier(users[j], ident)
  {
    if HasIdentifier(users[0], ident) {
      assert users[0] == FindUser(users, ident).value;
    } else {
      FindUserIsFirst(users[1..], ident);
      var k :| 0 <= k < |users[1..]| && users[1..][k] == FindUser(users[1..], ident).value &&
               forall j :: 0 <= j < k ==> !HasIdentifier(users[1..][j], ident);
      assert users[k + 1] == FindUser(users, ident).value;
      forall j | 0 <= j < k + 1 ensures !HasIdentifier(users[j], ident) {
        if j > 0 { assert users[j] == users[1..][j - 1]; }
      }
    }
  }

  /** An insert never changes which row an identifier already resolves to. */
  lemma {:induction false} FindUserAppend(users: seq<User>, row: User, ident: UserIdentifier)
    ensures FindUser(users + [row], ident) ==
      if FindUser(users, ident).Some? then FindUser(users, ident)
      else if HasIdentifier(row, ident) then Some(row) else None
  {
    if users == [] {
      assert users + [row] == [row];
    } else {
      assert (users + [row])[1..] == users[1..] + [row];
      FindUserAppend(users[1..], row, ident);
    }
  }

  lemma {:induction false} FindUserByIdAppend(users: seq<User>, row: User, id: nat)
    ensures FindUserById(users + [row], id) ==
      if FindUserById(users, id).Some? then FindUserById(users, id)
      else if row.id == id then Some(row) else None
  {
    if users == [] {
      assert users + [row] == [row];
    } else {
      assert (users + [row])[1..] == users[1..] + [row];
      FindUserByIdAppend(users[1..], row, id);
    }
  }

  lemma IdsDistinct(users: seq<User>, u: User, v: User)
    requires IdsIncreasing(users) && u in users && v in users && u.id == v.id
    ensures u == v
  {
    var i :| 0 <= i < |users| && users[i] == u;
    var j :| 0 <= j < |users| && users[j] == v;
    assert !(i < j) && !(j < i);
  }

  /** Under increasing ids a lookup by id finds exactly the row with that id. */
  lemma FindUserByIdOfMember(users: seq<User>, u: User)
    requires IdsIncreasing(users) && u in users
    ensures FindUserById(users, u.id) == Some(u)
  {
    IdsDistinct(users, u, FindUserById(users, u.id).value);
  }

  lemma IncreasingCons(x: User, s: seq<User>)
    requires IdsIncreasing(s) && forall v :: v in s ==> x.id < v.id
    ensures IdsIncreasing([x] + s)
  {
    var r := [x] + s;
    forall i, j | 0 <= i < j < |r| ensures r[i].id < r[j].id {
      assert r[j] == s[j - 1];
      if i > 0 { assert r[i] == s[i - 1]; }
    }
  }

  lemma IncreasingHead(s: seq<User>)
    requires IdsIncreasing(s) && s != []
    ensures IdsIncreasing(s[1..]) && forall v :: v in s[1..] ==> s[0].id < v.id
  {
    forall v | v in s[1..] ensures s[0].id < v.id {
      var m :| 0 <= m < |s[1..]| && s[1..][m] == v;
      assert s[m + 1] == v;
    }
  }

  lemma {:induction false} DeleteKeepsIncreasing(users: seq<User>, id: nat)
    requires IdsIncreasing(users)
    ensures IdsIncreasing(DeleteUser(users, id))
  {
    if users != [] {
      IncreasingHead(users);
      DeleteKeepsIncreasing(users[1..], id);
      if users[0].id != id {
        IncreasingCons(users[0], DeleteUser(users[1..], id));
      }
    }
  }

  lemma UpdateKeepsIncreasing(users: seq<User>, id: nat, row: User)
    requires row.id == id && IdsIncreasing(users)
    ensures IdsIncreasing(UpdateUser(users, id, row))
  {
  }

  lemma DeleteFindById(users: seq<User>, id: nat, x: nat)
    requires IdsIncreasing(users)
    ensures FindUserById(DeleteUser(users, id), x) == if x == id then None else FindUserById(users, x)
  {
    var after := DeleteUser(users, id);
    DeleteKeepsIncreasing(users, id);
    if x != id && FindUserById(users, x).Some? {
      var u := FindUserById(users, x).value;
      assert u in after;
      FindUserByIdOfMember(after, u);
    }
  }

  lemma UpdateFindById(users: seq<User>, id: nat, row: User, x: nat)
    requires row.id == id && IdsIncreasing(users)
    ensures FindUserById(UpdateUser(users, id, row), x) ==
      if x == id && FindUserById(users, id).Some? then Some(row) else FindUserById(users, x)
  {
    var after := UpdateUser(users, id, row);
    UpdateKeepsIncreasing(users, id, row);
    if FindUserById(users, x).Some? {
      var u := FindUserById(users, x).value;
      if x == id {
        assert row in after;
        FindUserByIdOfMember(after, row);
      } else {
        assert u in after;
        FindUserByIdOfMember(after, u);
      }
    }
  }

  /** The merge keeps the id invariants and every other id's row. */
  lemma MergeKeepsOtherRows(users: seq<User>, next: nat, user: User, other: User)
    requires IdsIncreasing(users) && IdsBelow(users, next)
    ensures IdsIncreasing(MergedUsers(users, user, other)) && IdsBelow(MergedUsers(users, user, other), next)
    ensures forall id :: id != user.id && id != other.id ==>
      FindUserById(MergedUsers(users, user, other), id) == FindUserById(users, id)
  {
    var m := MergeUser(user, other);
    var deleted := DeleteUser(users, other.id);
    var after := MergedUsers(users, user, other);
    DeleteKeepsIncreasing(users, other.id);
    UpdateKeepsIncreasing(deleted, user.id, m);
    forall id | id != user.id && id != other.id
      ensures FindUserById(after, id) == FindUserById(users, id)
    {
      DeleteFindById(users, other.id, id);
      UpdateFindById(deleted, user.id, m, id);
    }
    forall v | v in after ensures v.id < next {
      var i :| 0 <= i < |after| && after[i] == v;
      assert deleted[i] in users;
    }
  }

  /** Every row left by the merge other than the merged one is a third row,
      untouched. */
  lemma MergedRows(users: seq<User>, user: User, other: User)
    requires user in users && user.id != other.id
    ensures MergeUser(user, other) in MergedUsers(users, user, other)
    ensures forall v :: v in MergedUsers(users, user, other) && v != MergeUser(user, other) ==>
      v in users && v.id != user.id && v.id != other.id
  {
    assert user in DeleteUser(users, other.id);
  }

  lemma MergedIdentifiersUnique(users: seq<User>, user: User, other: User)
    requires IdentifiersUnique(users)
    requires user in users && other in users && user.id != other.id
    ensures forall v, ident ::
      v in MergedUsers(users, user, other) && v != MergeUser(user, other) && HasIdentifier(MergeUser(user, other), ident)
      ==> !HasIdentifier(v, ident)
    ensures IdentifiersUnique(MergedUsers(users, user, other))
  {
    var merged := MergeUser(user, other);
    var after := MergedUsers(users, user, other);
    MergedRows(users, user, other);
    forall v, ident | v in after && v != merged && HasIdentifier(merged, ident)
      ensures !HasIdentifier(v, ident)
    {
      assert v in users && v != user && v != other;
      assert HasIdentifier(user, ident) || HasIdentifier(other, ident);
    }
  }

  /** With the merge applied to two distinct rows of a table whose identifiers
      are unique: every identifier of the merged user resolves to that user,
      `other`'s id is gone, and identifiers stay unique. */
  lemma MergeResolvesIdentifiers(users: seq<User>, user: User, other: User)
    requires IdsIncreasing(users) && IdentifiersUnique(users)
    requires user in users && other in users && user.id != other.id
    ensures var after := MergedUsers(users, user, other);
      IdsIncreasing(after) && IdentifiersUnique(after) &&
      FindUserById(after, other.id).None? &&
      FindUserById(after, user.id) == Some(MergeUser(user, other)) &&
      forall ident :: HasIdentifier(MergeUser(user, other), ident) ==> FindUser(after, ident) == Some(MergeUser(user, other))
  {
    var merged := MergeUser(user, other);
    var deleted := DeleteUser(users, other.id);
    var after := MergedUsers(users, user, other);
    DeleteKeepsIncreasing(users, other.id);
    UpdateKeepsIncreasing(deleted, user.id, merged);
    MergedRows(users, user, other);
    MergedIdentifiersUnique(users, user, other);
    forall ident | HasIdentifier(merged, ident) ensures FindUser(after, ident) == Some(merged) {
      assert FindUser(after, ident).Some?;
    }
    DeleteFindById(users, other.id, other.id);
    UpdateFindById(deleted, user.id, merged, other.id);
    UpdateFindById(deleted, user.id, merged, user.id);
    assert user in deleted;
    FindUserByIdOfMember(deleted, user);
  }

  /** Cache entries agree with the users table. */
  ghost predicate UsersCacheCoherent(users: seq<User>, cache: map<nat, User>) {
    forall id :: id in cache ==> FindUserById(users, id) == Some(cache[id])
  }

  ghost predicate IdentifiersCacheCoherent(users: seq<User>, cache: map<UserIdentifier, nat>) {
    forall ident :: ident in cache ==> FindUser(users, ident).Some? && FindUser(users, ident).value.id == cache[ident]
  }

  /** Writing back the value a key already has changes nothing. */
  lemma UpdateWithSame<K, V>(m: map<K, V>, k: K)
    requires k in m
    ensures m[k := m[k]] == m
  {
  }

  ghost predicate SessionsCacheCoherent(sessions: map<string, WebSession>, cache: map<string, WebSession>) {
    forall s :: s in cache ==> s in sessions && sessions[s] == cache[s]
  }

  /** The user cache stays coherent once both merged ids are evicted. */
  lemma MergeKeepsUsersCache(users: seq<User>, next: nat, cache: map<nat, User>, user: User, other: User)
    requires IdsIncreasing(users) && IdsBelow(users, next) && UsersCacheCoherent(users, cache)
    ensures UsersCacheCoherent(MergedUsers(users, user, other), cache - {other.id, user.id})
    ensures IdsIncreasing(MergedUsers(users, user, other)) && IdsBelow(MergedUsers(users, user, other), next)
  {
    MergeKeepsOtherRows(users, next, user, other);
  }

  /** Appending the row `get_or_create_user` inserts keeps the id invariants
      and both caches, and the new row is the one the identifier finds. */
  lemma InsertUserKeepsCaches(users: seq<User>, next: nat, cache: map<nat, User>, idents: map<UserIdentifier, nat>, ident: UserIdentifier)
    requires IdsIncreasing(users) && IdsBelow(users, next) && FindUser(users, ident).None?
    requires UsersCacheCoherent(users, cache) && IdentifiersCacheCoherent(users, idents)
    ensures var after := users + [NewUser(next, ident)];
      IdsIncreasing(after) && IdsBelow(after, next + 1) &&
      UsersCacheCoherent(after, cache) && IdentifiersCacheCoherent(after, idents) &&
      FindUser(after, ident) == Some(NewUser(next, ident))
  {
    var row := NewUser(next, ident);
    var after := users + [row];
    forall x | x in idents ensures FindUser(after, x) == FindUser(users, x) {
      FindUserAppend(users, row, x);
    }
    forall id | id in cache ensures FindUserById(after, id) == FindUserById(users, id) {
      FindUserByIdAppend(users, row, id);
    }
    forall i, j | 0 <= i < j < |after| ensures after[i].id < after[j].id {
      assert after[i] in users;
    }
    FindUserAppend(users, row, ident);
  }

  // ------------------------------------------------------------- channels

  /** Channel ids are positions (auto-increment, never deleted) and no two
      rows share a platform and a channel name. */
  ghost predicate ChannelsWellFormed(chs: seq<Channel>) {
    (forall i :: 0 <= i < |chs| ==> chs[i].id == i + 1) &&
    (forall i, j :: 0 <= i < j < |chs| ==> chs[i].platform != chs[j].platform || chs[i].channel != chs[j].channel)
  }

  /** `channels.filter(platform.eq(p)).filter(channel.eq(c)).first()`. */
  function FindChannel(chs: seq<Channel>, platform: string, channel: string): (r: Option<Channel>)
    ensures r.Some? ==> r.value in chs && r.value.platform == platform && r.value.channel == channel
    ensures r.None? <==> forall c :: c in chs ==> c.platform != platform || c.channel != channel
  {
    if chs == [] then None
    else if chs[0].platform == platform && chs[0].channel == channel then Some(chs[0])
    else FindChannel(chs[1..], platform, channel)
  }

  lemma {:induction false} FindChannelAppend(chs: seq<Channel>, row: Channel, platform: string, channel: string)
    ensures FindChannel(chs + [row], platform, channel) ==
      if FindChannel(chs, platform, channel).Some? then FindChannel(chs, platform, channel)
      else if row.platform == platform && row.channel == channel then Some(row) else None
  {
    if chs == [] {
      assert chs + [row] == [row];
    } else {
      assert (chs + [row])[1..] == chs[1..] + [row];
      FindChannelAppend(chs[1..], row, platform, channel);
    }
  }

  /** The row `get_or_create_channel` inserts keeps the table well formed. */
  lemma InsertChannelWellFormed(chs: seq<Channel>, platform: string, channel: string)
    requires ChannelsWellFormed(chs) && FindChannel(chs, platform, channel).None?
    ensures ChannelsWellFormed(chs + [Channel(|chs| + 1, platform, channel)])
  {
    var r := chs + [Channel(|chs| + 1, platform, channel)];
    forall i, j | 0 <= i < j < |r| ensures r[i].platform != r[j].platform || r[i].channel != r[j].channel {
      if j == |chs| { assert r[i] in chs; }
    }
  }

  /** The channel rows after `get_or_create_channel` for `platform` and
      `channel`: unchanged when a row matches, else one more row with the next id. */
  function ChannelsAfterCreate(chs: seq<Channel>, platform: string, channel: string): (r: seq<Channel>)
    requires ChannelsWellFormed(chs)
    ensures ChannelsWellFormed(r) && chs <= r && |r| <= |chs| + 1
    ensures FindChannel(r, platform, channel) == Some(Channel(CreatedChannelId(chs, platform, channel), platform, channel))
  {
    if FindChannel(chs, platform, channel).Some? then chs
    else
      InsertChannelWellFormed(chs, platform, channel);
      FindChannelAppend(chs, Channel(|chs| + 1, platform, channel), platform, channel);
      chs + [Channel(|chs| + 1, platform, channel)]
  }

  /** The id of the row `get_or_create_channel` answers with. */
  function CreatedChannelId(chs: seq<Channel>, platform: string, channel: string): nat {
    match FindChannel(chs, platform, channel)
    case Some(c) => c.id
    case None => |chs| + 1
  }

  /** Creating a channel that is already there changes nothing. */
  lemma ChannelsAfterCreateIdempotent(chs: seq<Channel>, platform: string, channel: string)
    requires ChannelsWellFormed(chs)
    ensures ChannelsAfterCreate(ChannelsAfterCreate(chs, platform, channel), platform, channel) ==
      ChannelsAfterCreate(chs, platform, channel)
    ensures CreatedChannelId(ChannelsAfterCreate(chs, platform, channel), platform, channel) ==
      CreatedChannelId(chs, platform, channel)
  {
  }

  /** `get_channel`'s query: no channel string means no lookup. */
  function ChannelLookup(chs: seq<Channel>, ident: ChannelIdentifier): (r: Option<Channel>)
    ensures r.Some? ==>
      ident.ChannelName().Some? && r.value in chs &&
      Some(r.value.platform) == ident.PlatformName() && Some(r.value.channel) == ident.ChannelName()
    ensures r.None? && ident.ChannelName().Some? ==>
      forall c :: c in chs ==> Some(c.platform) != ident.PlatformName() || Some(c.channel) != ident.ChannelName()
  {
    match ident.ChannelName()
    case None => None
    case Some(name) => FindChannel(chs, ident.PlatformName().value, name)
  }

  /** Rows with the same platform and channel are the same row. */
  lemma ChannelUnique(chs: seq<Channel>, c: Channel)
    requires ChannelsWellFormed(chs) && c in chs
    ensures forall d :: d in chs && d.platform == c.platform && d.channel == c.channel ==> d == c
  {
    forall d | d in chs && d.platform == c.platform && d.channel == c.channel ensures d == c {
      var i :| 0 <= i < |chs| && chs[i] == c;
      var j :| 0 <= j < |chs| && chs[j] == d;
      assert !(i < j) && !(j < i);
    }
  }

  /** `get_command`'s query: the command of that name whose channel matches
      the identifier's platform and channel string. */
  function CommandLookup(t: SqlTables, ident: ChannelIdentifier, name: string): (r: Option<Command>)
    requires ChannelsWellFormed(t.channels) && CommandsKeyed(t.commands)
    ensures r.Some? ==>
      r.value.name == name && (r.value.channelId, name) in t.commands && t.commands[(r.value.channelId, name)] == r.value &&
      exists c :: c in t.channels && c.id == r.value.channelId &&
        Some(c.platform) == ident.PlatformName() && Some(c.channel) == ident.ChannelName()
    ensures r.None? ==>
      forall c :: c in t.channels && Some(c.platform) == ident.PlatformName() && Some(c.channel) == ident.ChannelName()
        ==> (c.id, name) !in t.commands
  {
    match ChannelLookup(t.channels, ident)
    case None => None
    case Some(c) =>
      ChannelUnique(t.channels, c);
      if (c.id, name) in t.commands then Some(t.commands[(c.id, name)]) else None
  }

  /** The lookup through a channel row answers with that channel's command. */
  lemma CommandLookupVia(t: SqlTables, ident: ChannelIdentifier, c: Channel, name: string)
    requires ChannelsWellFormed(t.channels) && CommandsKeyed(t.commands) && c in t.channels
    requires Some(c.platform) == ident.PlatformName() && Some(c.channel) == ident.ChannelName()
    ensures CommandLookup(t, ident, name) == if (c.id, name) in t.commands then Some(t.commands[(c.id, name)]) else None
  {
    ChannelUnique(t.channels, c);
  }

  /** The distinct platforms of the table, in order of first appearance. */
  function PlatformsOf(chs: seq<Channel>): (ps: seq<string>)
    ensures forall p :: p in ps <==> exists c :: c in chs && c.platform == p
    ensures forall i, j :: 0 <= i < j < |ps| ==> ps[i] != ps[j]
  {
    if chs == [] then []
    else
      var init := chs[..|chs| - 1];
      var last := chs[|chs| - 1];
      assert chs == init + [last];
      var rest := PlatformsOf(init);
      if last.platform in rest then rest else rest + [last.platform]
  }

  lemma PlatformsSnoc(chs: seq<Channel>, c: Channel)
    ensures PlatformsOf(chs + [c]) ==
      if c.platform in PlatformsOf(chs) then PlatformsOf(chs) else PlatformsOf(chs) + [c.platform]
  {
    assert (chs + [c])[..|chs|] == chs;
  }

  /** The channel names on one platform, in table order. */
  function NamesOn(chs: seq<Channel>, platform: string): (ns: seq<string>)
    ensures |ns| <= |chs|
    ensures forall n :: n in ns <==> exists c :: c in chs && c.platform == platform && c.channel == n
  {
    if chs == [] then []
    else
      var init := chs[..|chs| - 1];
      var last := chs[|chs| - 1];
      assert chs == init + [last];
      NamesOn(init, platform) + (if last.platform == platform then [last.channel] else [])
  }

  lemma NamesOnAbsent(chs: seq<Channel>, platform: string)
    requires platform !in PlatformsOf(chs)
    ensures NamesOn(chs, platform) == []
  {
    if NamesOn(chs, platform) != [] {
      assert NamesOn(chs, platform)[0] in NamesOn(chs, platform);
    }
  }

  lemma NamesSnoc(chs: seq<Channel>, c: Channel, platform: string)
    ensures NamesOn(chs + [c], platform) == NamesOn(chs, platform) + (if c.platform == platform then [c.channel] else [])
  {
    assert (chs + [c])[..|chs|] == chs;
  }

  // ------------------------------------------------------------ other rows

  /** Every command row sits under its own `(channel_id, name)` key. */
  ghost predicate CommandsKeyed(cmds: map<(nat, string), Command>) {
    forall k :: k in cmds ==> cmds[k].channelId == k.0 && cmds[k].name == k.1
  }

  ghost predicate NoBuiltinNames(cmds: map<(nat, string), Command>) {
    forall k :: k in cmds ==> k.1 !in BuiltinCommands
  }

  /** `filters.filter(channel_id.eq(id))`, in table order. */
  function FiltersOf(filters: seq<Filter>, channelId: nat): (r: seq<Filter>)
    ensures forall f :: f in r <==> f in filters && f.channelId == channelId
  {
    if filters == [] then []
    else (if filters[0].channelId == channelId then [filters[0]] else []) + FiltersOf(filters[1..], channelId)
  }

  /** `REPLACE INTO user_data SELECT keep, name, value FROM user_data WHERE
      user_id = drop`: every entry of `drop` is copied to `keep`, overwriting
      `keep`'s entry of the same name; nothing is removed. */
  function ReparentUserData(data: map<(nat, string), string>, keep: nat, drop: nat): (r: map<(nat, string), string>)
    ensures forall name :: (drop, name) in data ==> (keep, name) in r && r[(keep, name)] == data[(drop, name)]
    ensures forall k :: k in data && (k.0 != keep || (drop, k.1) !in data) ==> k in r && r[k] == data[k]
    ensures forall k :: k in r ==> k in data || (k.0 == keep && (drop, k.1) in data)
  {
    data + map k | k in data && k.0 == drop :: (keep, k.1) := data[k]
  }
}
