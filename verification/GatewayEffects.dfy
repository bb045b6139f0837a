/** What one event leaves in the cache and among the subscriptions, said on the event's own
    data, field by field and channel by channel. */
module GatewayEffects {
  import opened Entities
  import opened Overrides
  import opened RoleOrder
  import opened Decisions
  import opened Calculators
  import opened Gateway

  // ---------------------------------------------------------------------
  // Patched records: what is given replaces, what is not given stays

  predicate Replaced<T(==)>(before: T, given: Option<T>, after: T) {
    if given.Some? then after == given.value else after == before
  }

  /** What is given replaces; else what is cleared falls back; else it stays. */
  predicate ReplacedOrCleared<T(==)>(before: T, given: Option<T>, cleared: bool, fallback: T, after: T) {
    if given.Some? then after == given.value else if cleared then after == fallback else after == before
  }

  predicate ServerPatched(s: Server, data: PartialServer, t: Server) {
    && t.id == s.id && Replaced(s.owner, data.owner, t.owner) && Replaced(s.channels, data.channels, t.channels)
    && Replaced(s.roles, data.roles, t.roles) && Replaced(s.defaultPermissions, data.defaultPermissions, t.defaultPermissions)
  }

  predicate RolePatched(r: Role, data: PartialRole, q: Role) {
    Replaced(r.rank, data.rank, q.rank) && Replaced(r.permissions, data.permissions, q.permissions)
  }

  predicate MemberPatched(m: Member, data: PartialMember, clear: seq<MemberField>, n: Member) {
    && n.server == m.server && n.user == m.user
    && ReplacedOrCleared(m.roles, data.roles, FieldRoles in clear, [], n.roles)
    && (data.timeout.Some? ==> n.timeout == data.timeout)
    && (data.timeout.None? ==> n.timeout == if FieldTimeout in clear then None else m.timeout)
    && ReplacedOrCleared(m.canPublish, data.canPublish, FieldCanPublish in clear, true, n.canPublish)
    && ReplacedOrCleared(m.canReceive, data.canReceive, FieldCanReceive in clear, true, n.canReceive)
  }

  predicate ChannelPatched(c: Channel, data: PartialChannel, clearDefaults: bool, d: Channel) {
    if !c.TextChannel? then d == c
    else
      && d.TextChannel? && d.id == c.id && d.server == c.server
      && (data.defaults.Some? ==> d.defaults == data.defaults)
      && (data.defaults.None? ==> d.defaults == if clearDefaults then None else c.defaults)
      && Replaced(c.rolePermissions, data.rolePermissions, d.rolePermissions)
  }

  // ---------------------------------------------------------------------
  // Maps and topics

  ghost predicate SameBut<V>(before: map<Id, V>, after: map<Id, V>, id: Id) {
    forall k :: k != id ==> (k in after <==> k in before) && (k in before ==> after[k] == before[k])
  }

  ghost predicate TopicsBut(before: set<Topic>, after: set<Topic>, t: Topic) {
    forall u :: u != t ==> (u in after <==> u in before)
  }

  /** A cached channel of the server. */
  predicate OfServer(channels: map<Id, Channel>, id: Id, c: Id) {
    c in channels && channels[c].TextChannel? && channels[c].server == id
  }

  /** A channel of the server that we can no longer view. */
  predicate Hidden(env: Env, channels: map<Id, Channel>, cache: Cache, id: Id, c: Id)
    requires cache.userId in cache.users
  {
    OfServer(channels, id, c) && !CanView(env, cache, channels[c])
  }

  /** A channel that the server lists, that was not cached for it, that could be fetched and
      that we can view. */
  predicate Fetched(env: Env, channels: map<Id, Channel>, cache: Cache, id: Id, c: Id)
    requires cache.userId in cache.users
  {
    && env.bulkFetchOk && id in cache.servers && c in cache.servers[id].channels && !OfServer(channels, id, c)
    && c in env.db.channels && CanView(env, cache, env.db.channels[c])
  }

  /** One channel after the recalculation of a server. */
  predicate ChannelSettled(env: Env, channels: map<Id, Channel>, subscribed: set<Topic>, w: View, id: Id, c: Id)
    requires w.cache.userId in w.cache.users
  {
    if Fetched(env, channels, w.cache, id, c) then
      c in w.cache.channels && w.cache.channels[c] == env.db.channels[c] && ChannelTopic(c) in w.subscribed
    else if Hidden(env, channels, w.cache, id, c) then
      c !in w.cache.channels && ChannelTopic(c) !in w.subscribed
    else
      && (c in w.cache.channels <==> c in channels)
      && (c in channels ==> w.cache.channels[c] == channels[c])
      && (ChannelTopic(c) in w.subscribed <==> OfServer(channels, id, c) || ChannelTopic(c) in subscribed)
  }

  /** The channels of a cached server are recalculated, with the records of `w`. */
  ghost predicate Recalculated(env: Env, channels: map<Id, Channel>, subscribed: set<Topic>, w: View, id: Id)
    requires w.cache.userId in w.cache.users
  {
    if id !in w.cache.servers then w.cache.channels == channels && w.subscribed == subscribed
    else
      && (forall c :: ChannelSettled(env, channels, subscribed, w, id, c))
      && (forall t: Topic :: !t.ChannelTopic? ==> (t in w.subscribed <==> t in subscribed))
  }

  /** The channels and subscriptions are recalculated when they need to be, else left alone. */
  ghost predicate RecalculatedIf(needed: bool, env: Env, v: View, w: View, id: Id)
    requires w.cache.userId in w.cache.users
  {
    if needed then Recalculated(env, v.cache.channels, v.subscribed, w, id)
    else w.cache.channels == v.cache.channels && w.subscribed == v.subscribed
  }

  /** We have a relation with the user, are the user, or share a private channel. */
  ghost predicate Interested(cache: Cache, user: Id)
    requires cache.userId in cache.users
  {
    var our := cache.users[cache.userId];
    || our.id == user
    || (user in our.relations && (our.relations[user].Friend? || our.relations[user].Incoming?
                                  || our.relations[user].Outgoing? || our.relations[user].Self?))
    || (exists c <- cache.channels ::
          (cache.channels[c].DirectMessage? || cache.channels[c].Group?) && user in cache.channels[c].recipients)
  }

  ghost predicate Holds(cache: Cache, id: Id, role: Id) {
    id in cache.members && role in cache.members[id].roles
  }

  // ---------------------------------------------------------------------
  // What an event leaves, kind by kind

  ghost predicate ServerUpdated(c: Cache, id: Id, data: PartialServer, d: Cache) {
    && d == c.(servers := d.servers, channels := d.channels) && SameBut(c.servers, d.servers, id)
    && (id in d.servers <==> id in c.servers)
    && (id in c.servers ==> ServerPatched(c.servers[id], data, d.servers[id]))
  }

  ghost predicate RoleUpdated(c: Cache, id: Id, role: Id, data: PartialRole, d: Cache) {
    && d == c.(servers := d.servers, channels := d.channels) && SameBut(c.servers, d.servers, id)
    && (id in d.servers <==> id in c.servers)
    && (id in c.servers ==>
          && d.servers[id] == c.servers[id].(roles := d.servers[id].roles)
          && RolesPatched(c.servers[id].roles, role, data, d.servers[id].roles))
  }

  ghost predicate RolesPatched(r: map<Id, Role>, role: Id, data: PartialRole, q: map<Id, Role>) {
    SameBut(r, q, role) && (role in q <==> role in r) && (role in r ==> RolePatched(r[role], data, q[role]))
  }

  ghost predicate RoleDeleted(c: Cache, id: Id, role: Id, d: Cache) {
    && d == c.(servers := d.servers, channels := d.channels) && SameBut(c.servers, d.servers, id)
    && (id in d.servers <==> id in c.servers)
    && (id in c.servers ==>
          && d.servers[id] == c.servers[id].(roles := d.servers[id].roles)
          && SameBut(c.servers[id].roles, d.servers[id].roles, role) && role !in d.servers[id].roles)
  }

  ghost predicate MemberUpdated(c: Cache, id: Id, data: PartialMember, clear: seq<MemberField>, d: Cache) {
    && d == c.(members := d.members, channels := d.channels) && SameBut(c.members, d.members, id)
    && (id in d.members <==> id in c.members)
    && (id in c.members ==> MemberPatched(c.members[id], data, clear, d.members[id]))
  }

  ghost predicate ChannelUpdated(env: Env, c: Cache, id: Id, data: PartialChannel, clearDefaults: bool, d: Cache) {
    && d == c.(channels := d.channels) && SameBut(c.channels, d.channels, id)
    && (id in c.channels ==> id in d.channels && ChannelPatched(c.channels[id], data, clearDefaults, d.channels[id]))
    && (id !in c.channels ==>
          && (id in d.channels <==> id in env.db.channels)
          && (id in env.db.channels ==> d.channels[id] == env.db.channels[id]))
  }

  ghost predicate ChannelUpdateLeaves(env: Env, v: View, id: Id, data: PartialChannel, clearDefaults: bool, w: View)
    requires v.cache.userId in v.cache.users && w.cache.userId in w.cache.users
  {
    && ChannelUpdated(env, v.cache, id, data, clearDefaults, w.cache)
    && TopicsBut(v.subscribed, w.subscribed, ChannelTopic(id))
    && var could := id in v.cache.channels && CanView(env, v.cache, v.cache.channels[id]);
       var can := id in w.cache.channels && CanView(env, w.cache, w.cache.channels[id]);
       (ChannelTopic(id) in w.subscribed <==> if could == can then ChannelTopic(id) in v.subscribed else can)
  }

  /** Our own membership of a server just joined. */
  predicate NewMember(m: Member, server: Id, user: Id) {
    m.server == server && m.user == user && m.roles == [] && m.timeout.None? && m.canPublish && m.canReceive
  }

  ghost predicate ServerCreated(c: Cache, id: Id, server: Server, d: Cache) {
    && d == c.(servers := d.servers, members := d.members, channels := d.channels)
    && SameBut(c.servers, d.servers, id) && id in d.servers && d.servers[id] == server
    && SameBut(c.members, d.members, id) && id in d.members && NewMember(d.members[id], server.id, c.userId)
  }

  /** The subscriptions when a server is joined: only a bot listens to its members. */
  function JoinTopics(v: View, id: Id): set<Topic> {
    v.subscribed + {ServerTopic(id)} + (if v.cache.isBot then {MembersTopic(id)} else {})
  }

  /** The channels of the event are put among the others, the last of one ID counting. */
  ghost predicate Brings(before: map<Id, Channel>, channels: seq<Channel>, after: map<Id, Channel>) {
    forall k :: BringsAt(before, channels, after, k)
  }

  ghost predicate BringsAt(before: map<Id, Channel>, channels: seq<Channel>, after: map<Id, Channel>, k: Id) {
    && (k in after <==> k in before || exists i :: 0 <= i < |channels| && channels[i].id == k)
    && (forall i :: 0 <= i < |channels| && channels[i].id == k && (forall j :: i < j < |channels| ==> channels[j].id != k) ==>
          k in after && after[k] == channels[i])
    && (k in before && (forall i :: 0 <= i < |channels| ==> channels[i].id != k) ==> k in after && after[k] == before[k])
  }

  ghost predicate ServerGoneLeaves(v: View, id: Id, w: View) {
    && w.cache.users == v.cache.users && w.cache.seen == v.cache.seen
    && SameBut(v.cache.servers, w.cache.servers, id) && id !in w.cache.servers
    && SameBut(v.cache.members, w.cache.members, id) && id !in w.cache.members
    && (forall c :: c in w.cache.channels <==> c in v.cache.channels && !Listed(v, id, c))
    && (forall c <- w.cache.channels :: w.cache.channels[c] == v.cache.channels[c])
    && (forall c :: ChannelTopic(c) in w.subscribed <==> ChannelTopic(c) in v.subscribed && !Listed(v, id, c))
    && (forall t: Topic :: !t.ChannelTopic? ==> (t in w.subscribed <==> t in v.subscribed && t != ServerTopic(id)))
  }

  predicate Listed(v: View, id: Id, c: Id) {
    id in v.cache.servers && c in v.cache.servers[id].channels
  }

  /** The newest of at most twenty remembered event IDs comes first. */
  ghost predicate UserUpdateLeaves(v: View, eventId: Option<Id>, w: View) {
    && w.subscribed == v.subscribed && w.cache == v.cache.(seen := w.cache.seen)
    && (if eventId.None? || eventId.value in v.cache.seen then w.cache.seen == v.cache.seen
        else
          && |w.cache.seen| == (if |v.cache.seen| < 20 then |v.cache.seen| + 1 else 20)
          && w.cache.seen[0] == eventId.value && w.cache.seen[1..] <= v.cache.seen)
  }

  ghost predicate RelationshipLeaves(v: View, id: Id, profile: User, w: View)
    requires w.cache.userId in w.cache.users
  {
    && w.cache == v.cache.(users := w.cache.users) && SameBut(v.cache.users, w.cache.users, id)
    && id in w.cache.users && w.cache.users[id] == profile
    && TopicsBut(v.subscribed, w.subscribed, UserTopic(id)) && (UserTopic(id) in w.subscribed <==> Interested(w.cache, id))
  }

  ghost predicate GroupLeaveLeaves(v: View, id: Id, user: Id, w: View)
    requires v.cache.userId in v.cache.users
  {
    && w.cache == v.cache
    && (if user == v.cache.userId then
          TopicsBut(v.subscribed, w.subscribed, ChannelTopic(id)) && ChannelTopic(id) !in w.subscribed
        else
          && TopicsBut(v.subscribed, w.subscribed, UserTopic(user))
          && (UserTopic(user) in w.subscribed <==> UserTopic(user) in v.subscribed && Interested(v.cache, user)))
  }

  ghost predicate Leaves(env: Env, v: View, e: Event, w: View)
    requires v.cache.userId in v.cache.users && w.cache.userId in w.cache.users
  {
    match e
    case ChannelCreate(channel) =>
      && w.cache == v.cache.(channels := w.cache.channels) && SameBut(v.cache.channels, w.cache.channels, channel.id)
      && channel.id in w.cache.channels && w.cache.channels[channel.id] == channel
      && TopicsBut(v.subscribed, w.subscribed, ChannelTopic(channel.id)) && ChannelTopic(channel.id) in w.subscribed
    case ChannelUpdate(id, data, clearDefaults) => ChannelUpdateLeaves(env, v, id, data, clearDefaults, w)
    case ChannelDelete(id) =>
      && w.cache == v.cache.(channels := w.cache.channels) && SameBut(v.cache.channels, w.cache.channels, id)
      && id !in w.cache.channels
      && TopicsBut(v.subscribed, w.subscribed, ChannelTopic(id)) && ChannelTopic(id) !in w.subscribed
    case ChannelGroupJoin(id, user) =>
      w.cache == v.cache && TopicsBut(v.subscribed, w.subscribed, UserTopic(user)) && UserTopic(user) in w.subscribed
    case ChannelGroupLeave(id, user) => GroupLeaveLeaves(v, id, user, w)
    case ServerCreate(id, server, channels) =>
      && ServerCreated(v.cache, id, server, w.cache)
      && (exists brought :: Brings(v.cache.channels, channels, brought) && Recalculated(env, brought, JoinTopics(v, id), w, id))
    case ServerUpdate(id, data) =>
      ServerUpdated(v.cache, id, data, w.cache) && RecalculatedIf(data.defaultPermissions.Some?, env, v, w, id)
    case ServerMemberLeave(id, user) => if user == v.cache.userId then ServerGoneLeaves(v, id, w) else w == v
    case ServerDelete(id) => ServerGoneLeaves(v, id, w)
    case ServerMemberUpdate(id, user, data, clear) =>
      if user != v.cache.userId then w == v
      else
        && MemberUpdated(v.cache, id, data, clear, w.cache)
        && RecalculatedIf(data.roles.Some? || FieldRoles in clear, env, v, w, id)
    case ServerRoleUpdate(id, role, data) =>
      && RoleUpdated(v.cache, id, role, data, w.cache)
      && RecalculatedIf((data.rank.Some? || data.permissions.Some?) && Holds(v.cache, id, role), env, v, w, id)
    case ServerRoleDelete(id, role) =>
      RoleDeleted(v.cache, id, role, w.cache) && RecalculatedIf(Holds(v.cache, id, role), env, v, w, id)
    case UserUpdate(eventId) => UserUpdateLeaves(v, eventId, w)
    case UserRelationship(id, profile) => RelationshipLeaves(v, id, profile, w)
    case Bulk(_) => w == v
    case Other => w == v
  }

  // ---------------------------------------------------------------------
  // What the client is told

  /** A channel event of a recalculation: the loss of a hidden channel, or a fetched one whole. */
  predicate Announcement(env: Env, channels: map<Id, Channel>, cache: Cache, id: Id, told: Event)
    requires cache.userId in cache.users
  {
    || (told.ChannelDelete? && Hidden(env, channels, cache, id, told.id))
    || (told.ChannelCreate? && Fetched(env, channels, cache, id, told.channel.id)
        && told.channel == env.db.channels[told.channel.id])
  }

  /** The event alone, or in a bulk after what is told before it. */
  predicate SentAs(told: seq<Event>, event: Event, out: Event) {
    out == if told == [] then event else Bulk(told + [event])
  }

  ghost predicate TellsAll(env: Env, channels: map<Id, Channel>, cache: Cache, id: Id, told: seq<Event>)
    requires cache.userId in cache.users
  {
    forall e :: e in told <==> Announcement(env, channels, cache, id, e)
  }

  /** Exactly the channels that come and go are told, then the event. */
  ghost predicate Announced(env: Env, channels: map<Id, Channel>, cache: Cache, id: Id, event: Event, out: Event)
    requires cache.userId in cache.users
  {
    if id !in cache.servers then out == event
    else exists told :: SentAs(told, event, out) && TellsAll(env, channels, cache, id, told)
  }

  ghost predicate AnnouncedIf(needed: bool, env: Env, v: View, w: View, id: Id, event: Event, out: Event)
    requires w.cache.userId in w.cache.users
  {
    if needed then Announced(env, v.cache.channels, w.cache, id, event, out) else out == event
  }

  ghost predicate Tells(env: Env, v: View, e: Event, w: View, out: Event)
    requires v.cache.userId in v.cache.users && w.cache.userId in w.cache.users
  {
    match e
    case ChannelUpdate(id, _, _) =>
      var could := id in v.cache.channels && CanView(env, v.cache, v.cache.channels[id]);
      var can := id in w.cache.channels && CanView(env, w.cache, w.cache.channels[id]);
      out == if could == can then e else if can then ChannelCreate(w.cache.channels[id]) else ChannelDelete(id)
    case ServerCreate(id, _, channels) =>
      exists brought :: Brings(v.cache.channels, channels, brought) && Announced(env, brought, w.cache, id, e, out)
    case ServerUpdate(id, data) => AnnouncedIf(data.defaultPermissions.Some?, env, v, w, id, e, out)
    case ServerMemberUpdate(id, user, data, clear) =>
      AnnouncedIf(user == v.cache.userId && (data.roles.Some? || FieldRoles in clear), env, v, w, id, e, out)
    case ServerRoleUpdate(id, role, data) =>
      AnnouncedIf((data.rank.Some? || data.permissions.Some?) && Holds(v.cache, id, role), env, v, w, id, e, out)
    case ServerRoleDelete(id, role) => AnnouncedIf(Holds(v.cache, id, role), env, v, w, id, e, out)
    case UserUpdate(_) => out == UserUpdate(None)
    case _ => out == e
  }

  // ---------------------------------------------------------------------
  // The handlers leave that

  lemma SettledAt(env: Env, u: View, id: Id, c: Id)
    requires u.cache.userId in u.cache.users && id in u.cache.servers
    ensures ChannelSettled(env, u.cache.channels, u.subscribed, Recalculate(env, u, id), id, c)
  {
    var w := Recalculate(env, u, id);
    assert Fetched(env, u.cache.channels, w.cache, id, c) <==> c in Found(env, u.cache, id);
    assert OfServer(u.cache.channels, id, c) <==> c in ServerChannels(u.cache.channels, id);
  }

  lemma RecalculateLeaves(env: Env, u: View, id: Id)
    requires u.cache.userId in u.cache.users
    ensures var w := Recalculate(env, u, id);
            && w.cache == u.cache.(channels := w.cache.channels)
            && Recalculated(env, u.cache.channels, u.subscribed, w, id)
  {
    var w := Recalculate(env, u, id);
    if id in u.cache.servers {
      forall c
        ensures ChannelSettled(env, u.cache.channels, u.subscribed, w, id, c)
      {
        SettledAt(env, u, id, c);
      }
    }
  }

  /** An event that changes no channel itself, then is recalculated or not. */
  lemma QueuedLeaves(env: Env, v: View, e: Event, id: Id)
    requires v.cache.userId in v.cache.users
    requires Queued(v.cache, e).Some? ==> Queued(v.cache, e).value == id
    requires var u := Effect(env, v, e); u.cache.channels == v.cache.channels && u.subscribed == v.subscribed
    ensures var w, u := Handle(env, v, e), Effect(env, v, e);
            && w.cache == u.cache.(channels := w.cache.channels)
            && RecalculatedIf(Queued(v.cache, e).Some?, env, v, w, id)
  {
    RecalculateLeaves(env, Effect(env, v, e), id);
  }

  lemma ServerUpdateDoes(env: Env, v: View, id: Id, data: PartialServer)
    requires v.cache.userId in v.cache.users
    ensures Leaves(env, v, ServerUpdate(id, data), Handle(env, v, ServerUpdate(id, data)))
  {
    var e := ServerUpdate(id, data);
    assert ServerUpdated(v.cache, id, data, Effect(env, v, e).cache);
    QueuedLeaves(env, v, e, id);
  }

  lemma RoleUpdateRecorded(env: Env, v: View, id: Id, role: Id, data: PartialRole)
    requires v.cache.userId in v.cache.users
    ensures RoleUpdated(v.cache, id, role, data, Effect(env, v, ServerRoleUpdate(id, role, data)).cache)
  {
  }

  lemma RoleUpdateDoes(env: Env, v: View, id: Id, role: Id, data: PartialRole)
    requires v.cache.userId in v.cache.users
    ensures Leaves(env, v, ServerRoleUpdate(id, role, data), Handle(env, v, ServerRoleUpdate(id, role, data)))
  {
    RoleUpdateRecorded(env, v, id, role, data);
    QueuedLeaves(env, v, ServerRoleUpdate(id, role, data), id);
  }

  lemma RoleDeleteRecorded(env: Env, v: View, id: Id, role: Id)
    requires v.cache.userId in v.cache.users
    ensures RoleDeleted(v.cache, id, role, Effect(env, v, ServerRoleDelete(id, role)).cache)
  {
  }

  lemma RoleDeleteDoes(env: Env, v: View, id: Id, role: Id)
    requires v.cache.userId in v.cache.users
    ensures Leaves(env, v, ServerRoleDelete(id, role), Handle(env, v, ServerRoleDelete(id, role)))
  {
    RoleDeleteRecorded(env, v, id, role);
    QueuedLeaves(env, v, ServerRoleDelete(id, role), id);
  }

  lemma MemberUpdateRecorded(env: Env, v: View, id: Id, data: PartialMember, clear: seq<MemberField>)
    requires v.cache.userId in v.cache.users
    ensures MemberUpdated(v.cache, id, data, clear,
                          Effect(env, v, ServerMemberUpdate(id, v.cache.userId, data, clear)).cache)
  {
  }

  lemma MemberUpdateDoes(env: Env, v: View, e: Event)
    requires v.cache.userId in v.cache.users && e.ServerMemberUpdate?
    ensures Leaves(env, v, e, Handle(env, v, e))
  {
    if e.user == v.cache.userId {
      MemberUpdateRecorded(env, v, e.id, e.memberData, e.clear);
      QueuedLeaves(env, v, e, e.id);
    }
  }

  lemma {:induction false} InsertAllBrings(before: map<Id, Channel>, channels: seq<Channel>, k: Id)
    ensures BringsAt(before, channels, InsertAll(before, channels), k)
    decreases channels
  {
    if channels != [] {
      InsertAllBrings(before[channels[0].id := channels[0]], channels[1..], k);
      BringsStep(before, channels, InsertAll(before, channels), k);
    }
  }

  lemma BringsStep(before: map<Id, Channel>, channels: seq<Channel>, after: map<Id, Channel>, k: Id)
    requires channels != [] && BringsAt(before[channels[0].id := channels[0]], channels[1..], after, k)
    ensures BringsAt(before, channels, after, k)
  {
    var rest := channels[1..];
    assert forall i :: 0 < i < |channels| ==> rest[i - 1] == channels[i];
    assert forall i :: 0 <= i < |rest| ==> rest[i] == channels[i + 1];
  }

  lemma BringsAll(before: map<Id, Channel>, channels: seq<Channel>)
    ensures Brings(before, channels, InsertAll(before, channels))
  {
    forall k
      ensures BringsAt(before, channels, InsertAll(before, channels), k)
    {
      InsertAllBrings(before, channels, k);
    }
  }

  lemma ServerCreateDoes(env: Env, v: View, id: Id, server: Server, channels: seq<Channel>)
    requires v.cache.userId in v.cache.users
    ensures Leaves(env, v, ServerCreate(id, server, channels), Handle(env, v, ServerCreate(id, server, channels)))
  {
    var e := ServerCreate(id, server, channels);
    var u := HandleServerCreate(v, id, server, channels);
    BringsAll(v.cache.channels, channels);
    assert ServerCreated(v.cache, id, server, u.cache);
    RecalculateLeaves(env, u, id);
    assert Handle(env, v, e) == Recalculate(env, u, id);
  }

  lemma ChannelUpdateRecorded(env: Env, c: Cache, id: Id, data: PartialChannel, clearDefaults: bool)
    ensures ChannelUpdated(env, c, id, data, clearDefaults, Refreshed(env, c, id, data, clearDefaults))
  {
  }

  lemma ChannelUpdateDoes(env: Env, v: View, id: Id, data: PartialChannel, clearDefaults: bool)
    requires v.cache.userId in v.cache.users
    ensures Leaves(env, v, ChannelUpdate(id, data, clearDefaults), Handle(env, v, ChannelUpdate(id, data, clearDefaults)))
  {
    ChannelUpdateRecorded(env, v.cache, id, data, clearDefaults);
  }

  lemma ServerGoneDoes(v: View, id: Id)
    ensures ServerGoneLeaves(v, id, DropServer(v, id))
  {
  }

  lemma InterestedIsSubscribable(cache: Cache, user: Id)
    requires cache.userId in cache.users
    ensures Interested(cache, user) <==> CanSubscribeToUser(cache, user)
  {
  }

  lemma GroupLeaveDoes(env: Env, v: View, id: Id, user: Id)
    requires v.cache.userId in v.cache.users
    ensures GroupLeaveLeaves(v, id, user, Handle(env, v, ChannelGroupLeave(id, user)))
  {
    InterestedIsSubscribable(v.cache, user);
  }

  lemma RelationshipDoes(env: Env, v: View, id: Id, profile: User)
    requires v.cache.userId in v.cache.users
    ensures RelationshipLeaves(v, id, profile, Handle(env, v, UserRelationship(id, profile)))
  {
    InterestedIsSubscribable(Handle(env, v, UserRelationship(id, profile)).cache, id);
  }

  lemma UserUpdateDoes(env: Env, v: View, eventId: Option<Id>)
    requires v.cache.userId in v.cache.users
    ensures UserUpdateLeaves(v, eventId, Handle(env, v, UserUpdate(eventId)))
  {
  }

  lemma SmallDoes(env: Env, v: View, e: Event)
    requires v.cache.userId in v.cache.users
    requires e.ChannelCreate? || e.ChannelDelete? || e.ChannelGroupJoin? || e.Bulk? || e.Other?
    ensures Leaves(env, v, e, Handle(env, v, e))
  {
  }

  lemma GoneDoes(env: Env, v: View, e: Event)
    requires v.cache.userId in v.cache.users && (e.ServerMemberLeave? || e.ServerDelete?)
    ensures Leaves(env, v, e, Handle(env, v, e))
  {
    ServerGoneDoes(v, e.id);
  }

  lemma UserEventDoes(env: Env, v: View, e: Event)
    requires v.cache.userId in v.cache.users && (e.ChannelGroupLeave? || e.UserUpdate? || e.UserRelationship?)
    ensures Leaves(env, v, e, Handle(env, v, e))
  {
    match e
    case ChannelGroupLeave(id, user) => GroupLeaveDoes(env, v, id, user);
    case UserUpdate(eventId) => UserUpdateDoes(env, v, eventId);
    case UserRelationship(id, profile) => RelationshipDoes(env, v, id, profile);
  }

  /** Every event leaves what it should. */
  lemma HandleLeaves(env: Env, v: View, e: Event)
    requires v.cache.userId in v.cache.users
    ensures Leaves(env, v, e, Handle(env, v, e))
  {
    match e
    case ChannelUpdate(id, data, clearDefaults) => ChannelUpdateDoes(env, v, id, data, clearDefaults);
    case ServerCreate(id, server, channels) => ServerCreateDoes(env, v, id, server, channels);
    case ServerUpdate(id, data) => ServerUpdateDoes(env, v, id, data);
    case ServerMemberLeave(_, _) => GoneDoes(env, v, e);
    case ServerDelete(_) => GoneDoes(env, v, e);
    case ServerMemberUpdate(_, _, _, _) => MemberUpdateDoes(env, v, e);
    case ServerRoleUpdate(id, role, data) => RoleUpdateDoes(env, v, id, role, data);
    case ServerRoleDelete(id, role) => RoleDeleteDoes(env, v, id, role);
    case ChannelGroupLeave(_, _) => UserEventDoes(env, v, e);
    case UserUpdate(_) => UserEventDoes(env, v, e);
    case UserRelationship(_, _) => UserEventDoes(env, v, e);
    case _ => SmallDoes(env, v, e);
  }

  // ---------------------------------------------------------------------
  // Who sees a channel

  /** The answer of a viewability test, from the cached records and else the database's: all
      for the privileged and the owner, nothing without a server or a membership, and for a
      member what the deciding roles say of bit 20 (ViewChannel). */
  ghost predicate ViewVerdict(env: Env, cache: Cache, channel: Channel, r: bool)
    requires cache.userId in cache.users
  {
    if !channel.TextChannel? then r
    else
      var user, id := cache.users[cache.userId], channel.server;
      var server := if id in cache.servers then Some(cache.servers[id]) else None;
      var member := if id in cache.members then Some(cache.members[id]) else None;
      && (user.privileged ==> r)
      && (!user.privileged && server.None? && id !in env.db.servers ==> !r)
      && (forall s :: !user.privileged && IsServer(env.db, server, id, s) ==>
            && (s.owner == user.id ==> r)
            && (s.owner != user.id && Outsider(env.db, member, s.id, user.id) ==> !r))
      && (forall s, m :: !user.privileged && IsServer(env.db, server, id, s) && s.owner != user.id
                         && IsMember(env.db, member, s.id, user.id, m) && Clear(channel, s, m, env.orders(channel.id), 20) ==>
            (r <==> ChannelSays(channel, s, m, 20, ServerSays(s, m, 20))))
  }

  lemma ViewVerdictHolds(env: Env, cache: Cache, channel: Channel)
    requires cache.userId in cache.users
    ensures ViewVerdict(env, cache, channel, CanView(env, cache, channel))
  {
    if channel.TextChannel? {
      ChannelVerdictHolds(env.db, cache.users[cache.userId], channel, Lookup(cache.servers, channel.server),
                          Lookup(cache.members, channel.server), env.orders(channel.id), env.now);
    }
  }

  /** Nobody sees a server channel without a membership, cached or stored, other than the
      privileged and the owner. */
  lemma OutsidersSeeNothing(env: Env, cache: Cache, channel: Channel, s: Server)
    requires cache.userId in cache.users && channel.TextChannel? && s.id == channel.server
    requires channel.server !in cache.members && (channel.server, cache.users[cache.userId].id) !in env.db.members
    requires if channel.server in cache.servers then cache.servers[channel.server] == s
             else channel.server in env.db.servers && env.db.servers[channel.server] == s
    ensures CanView(env, cache, channel) <==> cache.users[cache.userId].privileged || s.owner == cache.users[cache.userId].id
  {
    var user := cache.users[cache.userId];
    ViewVerdictHolds(env, cache, channel);
    assert IsServer(env.db, Lookup(cache.servers, channel.server), channel.server, s);
    assert Outsider(env.db, Lookup(cache.members, channel.server), s.id, user.id);
  }

  // ---------------------------------------------------------------------
  // Which channels a recalculation leaves

  /** Our member record and the server are cached, and we are neither privileged nor the
      owner: what the roles say counts. */
  predicate Ordinary(cache: Cache, id: Id)
    requires cache.userId in cache.users
  {
    && Cached(cache, id) && !cache.users[cache.userId].privileged
    && cache.servers[id].owner != cache.users[cache.userId].id
  }

  /** A recalculation leaves exactly the cached channels of the server on which the deciding
      roles grant bit 20 (ViewChannel), and only those stay subscribed. */
  lemma StaysExactly(env: Env, channels: map<Id, Channel>, subscribed: set<Topic>, w: View, id: Id, c: Id)
    requires w.cache.userId in w.cache.users && Ordinary(w.cache, id) && OfServer(channels, id, c)
    requires Clear(channels[c], w.cache.servers[id], w.cache.members[id], env.orders(channels[c].id), 20)
    requires Recalculated(env, channels, subscribed, w, id)
    ensures var s, m := w.cache.servers[id], w.cache.members[id];
            var says := ChannelSays(channels[c], s, m, 20, ServerSays(s, m, 20));
            (c in w.cache.channels <==> says) && (ChannelTopic(c) in w.subscribed <==> says)
  {
    var s, m, user := w.cache.servers[id], w.cache.members[id], w.cache.users[w.cache.userId];
    ViewVerdictHolds(env, w.cache, channels[c]);
    assert IsServer(env.db, Some(s), id, s) && IsMember(env.db, Some(m), s.id, user.id, m);
    assert ChannelSettled(env, channels, subscribed, w, id, c);
  }

  /** No held role and not the channel itself mentions bit 20. */
  ghost predicate Unmentioned(channel: Channel, s: Server, m: Member)
    requires channel.TextChannel?
  {
    && (forall r :: !RoleSpeaks(s, m, r, 20) && !OverrideSpeaks(channel, s, m, r, 20))
    && (channel.defaults.Some? ==> 20 !in channel.defaults.value.allow && 20 !in channel.defaults.value.deny)
  }

  /** New server defaults decide every cached channel of the server that nothing later
      mentions: without ViewChannel it is dropped, unsubscribed and announced as gone; with
      it, it stays subscribed. */
  lemma NewDefaultsDecide(env: Env, v: View, id: Id, data: PartialServer, w: View, out: Event, c: Id)
    requires v.cache.userId in v.cache.users && w.cache.userId in w.cache.users
    requires Leaves(env, v, ServerUpdate(id, data), w) && Tells(env, v, ServerUpdate(id, data), w, out)
    requires data.defaultPermissions.Some? && Ordinary(w.cache, id) && OfServer(v.cache.channels, id, c)
    requires var channel, s := v.cache.channels[c], w.cache.servers[id];
             && Unmentioned(channel, s, w.cache.members[id])
             && Lists(env.orders(channel.id).roles, s.roles) && Lists(env.orders(channel.id).overrides, channel.rolePermissions)
    ensures c in w.cache.channels <==> 20 in data.defaultPermissions.value
    ensures ChannelTopic(c) in w.subscribed <==> 20 in data.defaultPermissions.value
    ensures 20 !in data.defaultPermissions.value ==> out.Bulk? && ChannelDelete(c) in out.v
  {
    var channel, s, m := v.cache.channels[c], w.cache.servers[id], w.cache.members[id];
    StaysExactly(env, v.cache.channels, v.subscribed, w, id, c);
    assert ServerSays(s, m, 20) <==> 20 in s.defaultPermissions;
    if 20 !in data.defaultPermissions.value {
      assert Hidden(env, v.cache.channels, w.cache, id, c) by {
        assert ChannelSettled(env, v.cache.channels, v.subscribed, w, id, c);
      }
      var told :| SentAs(told, ServerUpdate(id, data), out) && TellsAll(env, v.cache.channels, w.cache, id, told);
      assert Announcement(env, v.cache.channels, w.cache, id, ChannelDelete(c));
      assert ChannelDelete(c) in told;
    }
  }
}
