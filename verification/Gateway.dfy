/** The event gateway's per-connection cache as a state machine: what one incoming
    event does to the cache and to the set of subscribed topics. */
module Gateway {
  import opened Entities
  import opened Overrides
  import opened RoleOrder
  import opened Calculators

  /** Topics are strings in the program: the private topic is the user ID with a
      suffix, the member topic is the server ID with another, and user, server and
      channel IDs never coincide. */
  datatype Topic =
    | PrivateTopic(user: Id)
    | UserTopic(user: Id)
    | ServerTopic(server: Id)
    | MembersTopic(server: Id)
    | ChannelTopic(channel: Id)

  datatype Cache = Cache(
    userId: Id, isBot: bool,
    users: map<Id, User>, channels: map<Id, Channel>, members: map<Id, Member>, servers: map<Id, Server>,
    seen: seq<Id>)

  datatype PartialChannel = PartialChannel(
    defaults: Option<Override>, rolePermissions: Option<map<Id, Override>>)

  datatype PartialServer = PartialServer(
    owner: Option<Id>, channels: Option<seq<Id>>, roles: Option<map<Id, Role>>, defaultPermissions: Option<Bits>)

  datatype PartialMember = PartialMember(
    roles: Option<seq<Id>>, timeout: Option<int>, canPublish: Option<bool>, canReceive: Option<bool>)

  datatype MemberField = FieldRoles | FieldTimeout | FieldCanReceive | FieldCanPublish | FieldOther

  datatype PartialRole = PartialRole(rank: Option<int>, permissions: Option<Override>)

  /** The events that touch the cache or the subscriptions; all others are `Other`. */
  datatype Event =
    | ChannelCreate(channel: Channel)
    | ChannelUpdate(id: Id, channelData: PartialChannel, clearDefaults: bool)
    | ChannelDelete(id: Id)
    | ChannelGroupJoin(id: Id, user: Id)
    | ChannelGroupLeave(id: Id, user: Id)
    | ServerCreate(id: Id, server: Server, channels: seq<Channel>)
    | ServerUpdate(id: Id, serverData: PartialServer)
    | ServerMemberLeave(id: Id, user: Id)
    | ServerDelete(id: Id)
    | ServerMemberUpdate(id: Id, user: Id, memberData: PartialMember, clear: seq<MemberField>)
    | ServerRoleUpdate(id: Id, role: Id, roleData: PartialRole)
    | ServerRoleDelete(id: Id, role: Id)
    | UserUpdate(eventId: Option<Id>)
    | UserRelationship(id: Id, profile: User)
    | Bulk(v: seq<Event>)
    | Other

  /** The iteration orders that a viewability test of a channel meets. */
  type Iteration = Id -> Orders

  /** Everything a handler reads besides its own state. The bulk channel fetch of a
      recalculation can fail on its own. */
  datatype Env = Env(db: Db, orders: Iteration, now: int, bulkFetchOk: bool)

  datatype View = View(cache: Cache, subscribed: set<Topic>)

  // ---------------------------------------------------------------------
  // Viewability

  function Lookup<V>(m: map<Id, V>, id: Id): Option<V> {
    if id in m then Some(m[id]) else None
  }

  /** `can_view_channel`: cached records first, fetched ones otherwise. */
  predicate CanView(env: Env, cache: Cache, channel: Channel)
    requires cache.userId in cache.users
  {
    channel.TextChannel? ==>
      VIEW_CHANNEL in ChannelPermissions(
                        env.db, cache.users[cache.userId], channel, Lookup(cache.servers, channel.server),
                        Lookup(cache.members, channel.server), env.orders(channel.id), env.now)
  }

  /** The permission calculus on cached records alone. */
  predicate Visible(orders: Orders, user: User, channel: Channel, server: Server, member: Member)
    requires channel.TextChannel?
  {
    || user.privileged
    || server.owner == user.id
    || VIEW_CHANNEL in Fold(Fold(server.defaultPermissions, ServerOverrides(server, member, orders.roles)),
                            [DefaultOverride(channel)] + ChannelOverrides(channel, server, member, orders.overrides))
  }

  /** The server and our own membership are cached under the channel's server ID. */
  predicate Cached(cache: Cache, server: Id) {
    server in cache.servers && cache.servers[server].id == server && server in cache.members
  }

  lemma CanViewIsVisible(env: Env, cache: Cache, channel: Channel)
    requires cache.userId in cache.users && channel.TextChannel? && Cached(cache, channel.server)
    ensures CanView(env, cache, channel)
       <==> Visible(env.orders(channel.id), cache.users[cache.userId], channel,
                    cache.servers[channel.server], cache.members[channel.server])
  {
    var server, member := cache.servers[channel.server], cache.members[channel.server];
    var orders := env.orders(channel.id);
    ViewSkipsRestrictions(
      server.defaultPermissions, ServerOverrides(server, member, orders.roles),
      [DefaultOverride(channel)] + ChannelOverrides(channel, server, member, orders.overrides), member, env.now);
  }

  // ---------------------------------------------------------------------
  // Pieces of the handlers

  function UpdateChannel(c: Channel, data: PartialChannel, clearDefaults: bool): (r: Channel)
    ensures r.id == c.id
  {
    match c
    case TextChannel(id, server, defaults, rolePermissions) =>
      TextChannel(id, server,
                  if data.defaults.Some? then data.defaults else if clearDefaults then None else defaults,
                  if data.rolePermissions.Some? then data.rolePermissions.value else rolePermissions)
    case _ => c
  }

  function UpdateServer(s: Server, data: PartialServer): (r: Server)
    ensures r.id == s.id
  {
    Server(s.id,
           if data.owner.Some? then data.owner.value else s.owner,
           if data.channels.Some? then data.channels.value else s.channels,
           if data.roles.Some? then data.roles.value else s.roles,
           if data.defaultPermissions.Some? then data.defaultPermissions.value else s.defaultPermissions)
  }

  function UpdateMember(m: Member, data: PartialMember, clear: seq<MemberField>): Member {
    var roles := if FieldRoles in clear then [] else m.roles;
    var timeout := if FieldTimeout in clear then None else m.timeout;
    var canPublish := if FieldCanPublish in clear then true else m.canPublish;
    var canReceive := if FieldCanReceive in clear then true else m.canReceive;
    Member(m.server, m.user,
           if data.roles.Some? then data.roles.value else roles,
           if data.timeout.Some? then data.timeout else timeout,
           if data.canPublish.Some? then data.canPublish.value else canPublish,
           if data.canReceive.Some? then data.canReceive.value else canReceive)
  }

  function UpdateRole(r: Role, data: PartialRole): Role {
    Role(if data.rank.Some? then data.rank.value else r.rank,
         if data.permissions.Some? then data.permissions.value else r.permissions)
  }

  /** Whether a user's topic is of interest: a relation, or a shared private channel. */
  predicate CanSubscribeToUser(cache: Cache, user: Id) {
    && cache.userId in cache.users
    && (|| cache.users[cache.userId].RelationshipWith(user) in {Friend, Incoming, Outgoing, Self}
        || exists c <- cache.channels ::
             var ch := cache.channels[c]; (ch.DirectMessage? || ch.Group?) && user in ch.recipients)
  }

  function ChannelTopics(ids: set<Id>): set<Topic> {
    set c <- ids :: ChannelTopic(c)
  }

  function ServerChannels(channels: map<Id, Channel>, server: Id): set<Id> {
    set c <- channels | channels[c].TextChannel? && channels[c].server == server
  }

  function InsertAll(channels: map<Id, Channel>, cs: seq<Channel>): map<Id, Channel>
    decreases cs
  {
    if cs == [] then channels else InsertAll(channels[cs[0].id := cs[0]], cs[1..])
  }

  function SetOf<T>(s: seq<T>): set<T> {
    set x <- s
  }

  // ---------------------------------------------------------------------
  // Recalculation of one server

  /** The server's cached channels that we can no longer view. */
  function Lost(env: Env, cache: Cache, id: Id): set<Id>
    requires cache.userId in cache.users
  {
    set c <- ServerChannels(cache.channels, id) | !CanView(env, cache, cache.channels[c])
  }

  /** The listed but uncached channels that could be fetched and can be viewed. */
  function Found(env: Env, cache: Cache, id: Id): set<Id>
    requires cache.userId in cache.users && id in cache.servers
  {
    if !env.bulkFetchOk then {}
    else set c <- SetOf(cache.servers[id].channels) - ServerChannels(cache.channels, id) |
           c in env.db.channels && CanView(env, cache, env.db.channels[c])
  }

  function FoundMap(env: Env, cache: Cache, id: Id): map<Id, Channel>
    requires cache.userId in cache.users && id in cache.servers
  {
    map c <- Found(env, cache, id) :: env.db.channels[c]
  }

  function Recalculate(env: Env, v: View, id: Id): View
    requires v.cache.userId in v.cache.users
  {
    var cache := v.cache;
    if id !in cache.servers then v
    else
      var lost, found := Lost(env, cache, id), Found(env, cache, id);
      var kept := ServerChannels(cache.channels, id) - lost;
      View(cache.(channels := (cache.channels - lost) + FoundMap(env, cache, id)),
           v.subscribed + ChannelTopics(kept) - ChannelTopics(lost) + ChannelTopics(found))
  }

  // ---------------------------------------------------------------------
  // One event

  /** What leaving or deleting a server drops. */
  function DropServer(v: View, id: Id): View {
    var cache := v.cache;
    var listed := if id in cache.servers then SetOf(cache.servers[id].channels) else {};
    View(cache.(servers := cache.servers - {id}, members := cache.members - {id}, channels := cache.channels - listed),
         v.subscribed - {ServerTopic(id)} - ChannelTopics(listed))
  }

  /** The channel after an update: the cached one with the changes, else a fetched one. */
  function Refreshed(env: Env, cache: Cache, id: Id, data: PartialChannel, clearDefaults: bool): Cache {
    if id in cache.channels then
      cache.(channels := cache.channels[id := UpdateChannel(cache.channels[id], data, clearDefaults)])
    else if env.db.FetchChannel(id).Some? then
      cache.(channels := cache.channels[id := env.db.FetchChannel(id).value])
    else cache
  }

  predicate Shows(env: Env, cache: Cache, id: Id)
    requires cache.userId in cache.users
  {
    id in cache.channels && CanView(env, cache, cache.channels[id])
  }

  function HandleChannelUpdate(env: Env, v: View, id: Id, data: PartialChannel, clearDefaults: bool): View
    requires v.cache.userId in v.cache.users
  {
    var cache := Refreshed(env, v.cache, id, data, clearDefaults);
    View(cache,
         if id !in cache.channels || Shows(env, v.cache, id) == Shows(env, cache, id) then v.subscribed
         else if Shows(env, cache, id) then v.subscribed + {ChannelTopic(id)}
         else v.subscribed - {ChannelTopic(id)})
  }

  function HandleServerCreate(v: View, id: Id, server: Server, channels: seq<Channel>): View {
    var cache := v.cache;
    View(cache.(servers := cache.servers[id := server],
                members := cache.members[id := Member(server.id, cache.userId, [], None, true, true)],
                channels := InsertAll(cache.channels, channels)),
         v.subscribed + {ServerTopic(id)} + (if cache.isBot then {MembersTopic(id)} else {}))
  }

  const SEEN_CAPACITY: nat := 20

  /** The bounded list of recently seen update events, newest first. */
  function Remember(seen: seq<Id>, id: Id): seq<Id> {
    if |seen| < SEEN_CAPACITY then [id] + seen else [id] + seen[..SEEN_CAPACITY - 1]
  }

  /** The effect of an event on the cache and on the single topics it names. */
  function Effect(env: Env, v: View, e: Event): (r: View)
    requires v.cache.userId in v.cache.users
    ensures r.cache.userId == v.cache.userId && r.cache.isBot == v.cache.isBot
    ensures v.cache.userId in r.cache.users
  {
    var cache := v.cache;
    match e
    case ChannelCreate(channel) =>
      View(cache.(channels := cache.channels[channel.id := channel]), v.subscribed + {ChannelTopic(channel.id)})
    case ChannelUpdate(id, data, clearDefaults) =>
      HandleChannelUpdate(env, v, id, data, clearDefaults)
    case ChannelDelete(id) =>
      View(cache.(channels := cache.channels - {id}), v.subscribed - {ChannelTopic(id)})
    case ChannelGroupJoin(id, user) =>
      v.(subscribed := v.subscribed + {UserTopic(user)})
    case ChannelGroupLeave(id, user) =>
      if user == cache.userId then v.(subscribed := v.subscribed - {ChannelTopic(id)})
      else if !CanSubscribeToUser(cache, user) then v.(subscribed := v.subscribed - {UserTopic(user)})
      else v
    case ServerCreate(id, server, channels) => HandleServerCreate(v, id, server, channels)
    case ServerUpdate(id, data) =>
      if id in cache.servers then SetServer(v, id, UpdateServer(cache.servers[id], data)) else v
    case ServerMemberLeave(id, user) =>
      if user == cache.userId then DropServer(v, id) else v
    case ServerDelete(id) => DropServer(v, id)
    case ServerMemberUpdate(id, user, data, clear) =>
      if user == cache.userId && id in cache.members
      then v.(cache := cache.(members := cache.members[id := UpdateMember(cache.members[id], data, clear)]))
      else v
    case ServerRoleUpdate(id, role, data) =>
      if id in cache.servers && role in cache.servers[id].roles
      then SetRoles(v, id, cache.servers[id].roles[role := UpdateRole(cache.servers[id].roles[role], data)])
      else v
    case ServerRoleDelete(id, role) =>
      if id in cache.servers then SetRoles(v, id, cache.servers[id].roles - {role}) else v
    case UserUpdate(eventId) =>
      if eventId.Some? && eventId.value !in cache.seen
      then v.(cache := cache.(seen := Remember(cache.seen, eventId.value))) else v
    case UserRelationship(id, profile) => HandleRelationship(v, id, profile)
    case Bulk(_) => v
    case Other => v
  }

  /** The server that an event queues for recalculation. */
  function Queued(cache: Cache, e: Event): Option<Id> {
    match e
    case ServerCreate(id, _, _) => Some(id)
    case ServerUpdate(id, data) => if data.defaultPermissions.Some? then Some(id) else None
    case ServerMemberUpdate(id, user, data, clear) =>
      if user == cache.userId && (data.roles.Some? || FieldRoles in clear) then Some(id) else None
    case ServerRoleUpdate(id, role, data) =>
      if (data.rank.Some? || data.permissions.Some?) && HoldsRole(cache, id, role) then Some(id) else None
    case ServerRoleDelete(id, role) => if HoldsRole(cache, id, role) then Some(id) else None
    case _ => None
  }

  /** One event: its own effect, then the recalculation it queued. */
  function Handle(env: Env, v: View, e: Event): (r: View)
    requires v.cache.userId in v.cache.users
    ensures r.cache.userId == v.cache.userId && r.cache.isBot == v.cache.isBot
    ensures v.cache.userId in r.cache.users
  {
    var queued := Queued(v.cache, e);
    if queued.Some? then Recalculate(env, Effect(env, v, e), queued.value) else Effect(env, v, e)
  }

  function SetServer(v: View, id: Id, server: Server): View {
    v.(cache := v.cache.(servers := v.cache.servers[id := server]))
  }

  function HandleRelationship(v: View, id: Id, profile: User): View {
    var cache := v.cache.(users := v.cache.users[id := profile]);
    View(cache, if CanSubscribeToUser(cache, id) then v.subscribed + {UserTopic(id)} else v.subscribed - {UserTopic(id)})
  }

  function SetRoles(v: View, id: Id, roles: map<Id, Role>): View
    requires id in v.cache.servers
  {
    SetServer(v, id, v.cache.servers[id].(roles := roles))
  }

  predicate HoldsRole(cache: Cache, id: Id, role: Id) {
    id in cache.members && role in cache.members[id].roles
  }
}
