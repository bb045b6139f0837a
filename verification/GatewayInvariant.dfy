/** Every channel we can view is subscribed: the cache/subscription agreement that
    events keep, and exactly which events can break it. */
module GatewayInvariant {
  import opened Entities
  import opened Overrides
  import opened RoleOrder
  import opened Calculators
  import opened BulkCalculator
  import opened Gateway

  /** A cached server channel whose server and membership are cached, and which the
      permission calculus makes visible. */
  predicate Owed(orders: Iteration, cache: Cache, c: Id)
    requires cache.userId in cache.users
  {
    && c in cache.channels && cache.channels[c].TextChannel?
    && Cached(cache, cache.channels[c].server)
    && Visible(orders(cache.channels[c].id), cache.users[cache.userId], cache.channels[c],
               cache.servers[cache.channels[c].server], cache.members[cache.channels[c].server])
  }

  ghost predicate Inv(orders: Iteration, v: View) {
    var cache := v.cache;
    && cache.userId in cache.users
    && (forall s <- cache.servers :: cache.servers[s].id == s)
    && (forall c <- cache.channels :: cache.channels[c].id == c)
    && (forall c :: Owed(orders, cache, c) ==> ChannelTopic(c) in v.subscribed)
  }

  /** Events name things of the right kind: a created server comes with its own
      channels, and a group is not a server channel. */
  ghost predicate WellFormed(cache: Cache, e: Event) {
    match e
    case ServerCreate(id, server, channels) =>
      server.id == id && forall c <- channels :: c.TextChannel? && c.server == id
    case ChannelGroupLeave(id, user) => id in cache.channels ==> !cache.channels[id].TextChannel?
    case _ => true
  }

  /** The events after which every newly visible channel is picked up, for a connection
      of `userId` that sees with the eyes of the record of `me`. Not among them: a
      server update that replaces the roles or hands us the ownership without touching
      the default permissions, and a relationship event that stores another person's
      record, or a privileged one, as our own. */
  predicate PicksUpFor(userId: Id, me: Id, e: Event) {
    match e
    case ServerUpdate(id, data) =>
      data.defaultPermissions.Some? || (data.roles.None? && data.owner != Some(me))
    case UserRelationship(id, profile) => id == userId ==> profile.id == me && !profile.privileged
    case _ => true
  }

  predicate PicksUp(cache: Cache, e: Event)
    requires cache.userId in cache.users
  {
    PicksUpFor(cache.userId, cache.users[cache.userId].id, e)
  }

  // ---------------------------------------------------------------------
  // Recalculation

  /** `Inv` except for the channels of one server. */
  ghost predicate InvExcept(orders: Iteration, v: View, id: Id) {
    var cache := v.cache;
    && cache.userId in cache.users
    && (forall s <- cache.servers :: cache.servers[s].id == s)
    && (forall c <- cache.channels :: cache.channels[c].id == c)
    && (forall c :: Owed(orders, cache, c) && cache.channels[c].server != id ==> ChannelTopic(c) in v.subscribed)
  }

  /** Recalculating a server restores the agreement for its channels. */
  lemma RecalculateRestores(env: Env, v: View, id: Id)
    requires InvExcept(env.orders, v, id) && env.db.Keyed()
    ensures Inv(env.orders, Recalculate(env, v, id))
  {
    var w := Recalculate(env, v, id);
    if id !in v.cache.servers {
      assert w == v;
      return;
    }
    forall c | Owed(env.orders, w.cache, c)
      ensures ChannelTopic(c) in w.subscribed
    {
      RecalculateCovers(env, v, id, c);
    }
  }

  lemma RecalculateCovers(env: Env, v: View, id: Id, c: Id)
    requires InvExcept(env.orders, v, id) && env.db.Keyed() && id in v.cache.servers
    requires Owed(env.orders, Recalculate(env, v, id).cache, c)
    ensures ChannelTopic(c) in Recalculate(env, v, id).subscribed
  {
    if c !in Found(env, v.cache, id) && v.cache.channels[c].server == id {
      CanViewIsVisible(env, v.cache, v.cache.channels[c]);
      assert c in ServerChannels(v.cache.channels, id) - Lost(env, v.cache, id);
    } else if c !in Found(env, v.cache, id) {
      assert Owed(env.orders, v.cache, c);
      assert c !in Lost(env, v.cache, id);
    }
  }

  /** Whatever came before, a stranger's record stored as our own included: after a
      recalculation every visible channel of that server is subscribed. */
  lemma RecalculateSettles(env: Env, v: View, id: Id, c: Id)
    requires v.cache.userId in v.cache.users && id in v.cache.servers
    requires forall c <- v.cache.channels :: v.cache.channels[c].id == c
    requires Owed(env.orders, Recalculate(env, v, id).cache, c)
    requires Recalculate(env, v, id).cache.channels[c].server == id
    ensures ChannelTopic(c) in Recalculate(env, v, id).subscribed
  {
    if c !in Found(env, v.cache, id) {
      CanViewIsVisible(env, v.cache, v.cache.channels[c]);
      assert c in ServerChannels(v.cache.channels, id) - Lost(env, v.cache, id);
    }
  }

  /** After a recalculation, what is cached for the server is exactly what was
      cached and is viewable plus the viewable channels that could be fetched;
      all of it is subscribed, and other servers' channels are untouched. */
  lemma RecalculateExact(env: Env, v: View, id: Id, c: Id)
    requires v.cache.userId in v.cache.users && id in v.cache.servers && env.db.Keyed()
    ensures var w := Recalculate(env, v, id);
            && (c in w.cache.channels <==>
                || (c in v.cache.channels && c !in ServerChannels(v.cache.channels, id))
                || (c in ServerChannels(v.cache.channels, id) && CanView(env, v.cache, v.cache.channels[c]))
                || c in Found(env, v.cache, id))
            && (c in w.cache.channels && (c in ServerChannels(v.cache.channels, id) || c in Found(env, v.cache, id))
                ==> ChannelTopic(c) in w.subscribed && CanView(env, w.cache, w.cache.channels[c]))
            && (c in ServerChannels(v.cache.channels, id) && c !in w.cache.channels
                ==> ChannelTopic(c) !in w.subscribed)
            && (c !in ServerChannels(v.cache.channels, id) && c !in Found(env, v.cache, id)
                ==> (ChannelTopic(c) in w.subscribed <==> ChannelTopic(c) in v.subscribed))
  {
  }

  // ---------------------------------------------------------------------
  // Every event

  /** A change to the cache under which nothing new becomes visible. */
  lemma NothingNew(orders: Iteration, v: View, w: View)
    requires Inv(orders, v)
    requires w.cache.userId in w.cache.users
    requires forall s <- w.cache.servers :: w.cache.servers[s].id == s
    requires forall c <- w.cache.channels :: w.cache.channels[c].id == c
    requires forall c :: Owed(orders, w.cache, c) ==> Owed(orders, v.cache, c)
    requires forall c :: Owed(orders, w.cache, c) && ChannelTopic(c) in v.subscribed ==> ChannelTopic(c) in w.subscribed
    ensures Inv(orders, w)
  {
  }

  lemma ChannelUpdateKeeps(env: Env, v: View, id: Id, data: PartialChannel, clearDefaults: bool)
    requires Inv(env.orders, v) && env.db.Keyed()
    ensures Inv(env.orders, HandleChannelUpdate(env, v, id, data, clearDefaults))
  {
    var w := HandleChannelUpdate(env, v, id, data, clearDefaults);
    forall c | Owed(env.orders, w.cache, c)
      ensures ChannelTopic(c) in w.subscribed
    {
      if c == id {
        CanViewIsVisible(env, w.cache, w.cache.channels[id]);
        if id in v.cache.channels && v.cache.channels[id].TextChannel? {
          CanViewIsVisible(env, v.cache, v.cache.channels[id]);
        }
        assert id in v.cache.channels && CanView(env, v.cache, v.cache.channels[id]) ==> Owed(env.orders, v.cache, id);
      } else {
        assert Owed(env.orders, v.cache, c);
      }
    }
  }

  lemma {:induction false} InsertAllMembers(channels: map<Id, Channel>, cs: seq<Channel>, c: Id)
    ensures c in InsertAll(channels, cs) ==>
              InsertAll(channels, cs)[c] in cs || (c in channels && InsertAll(channels, cs)[c] == channels[c])
    ensures c in InsertAll(channels, cs) && (c in channels ==> channels[c].id == c) ==> InsertAll(channels, cs)[c].id == c
    decreases cs
  {
    if cs != [] {
      InsertAllMembers(channels[cs[0].id := cs[0]], cs[1..], c);
    }
  }

  lemma ServerCreateKeeps(env: Env, v: View, id: Id, server: Server, channels: seq<Channel>)
    requires Inv(env.orders, v) && env.db.Keyed()
    requires server.id == id && forall c <- channels :: c.TextChannel? && c.server == id
    ensures Inv(env.orders, Handle(env, v, ServerCreate(id, server, channels)))
  {
    var w := HandleServerCreate(v, id, server, channels);
    forall c | c in w.cache.channels
      ensures w.cache.channels[c].id == c
      ensures w.cache.channels[c].TextChannel? && w.cache.channels[c].server != id ==>
                c in v.cache.channels && w.cache.channels[c] == v.cache.channels[c]
    {
      InsertAllMembers(v.cache.channels, channels, c);
    }
    forall c | Owed(env.orders, w.cache, c) && w.cache.channels[c].server != id
      ensures ChannelTopic(c) in w.subscribed
    {
      assert Owed(env.orders, v.cache, c);
    }
    RecalculateRestores(env, w, id);
  }

  /** Changing one server's record leaves other servers' channels alone. */
  lemma OtherServersUntouched(orders: Iteration, v: View, id: Id, w: View)
    requires Inv(orders, v)
    requires w == v.(cache := v.cache.(servers := w.cache.servers, members := w.cache.members))
    requires forall s <- w.cache.servers :: w.cache.servers[s].id == s
    requires forall s :: s != id ==>
               && (s in w.cache.servers <==> s in v.cache.servers)
               && (s in w.cache.members <==> s in v.cache.members)
               && (s in w.cache.servers ==> w.cache.servers[s] == v.cache.servers[s])
               && (s in w.cache.members ==> w.cache.members[s] == v.cache.members[s])
    ensures InvExcept(orders, w, id)
  {
    forall c | Owed(orders, w.cache, c) && w.cache.channels[c].server != id
      ensures ChannelTopic(c) in w.subscribed
    {
      assert Owed(orders, v.cache, c);
    }
  }

  lemma DropServerKeeps(orders: Iteration, v: View, id: Id)
    requires Inv(orders, v)
    ensures Inv(orders, DropServer(v, id))
  {
    var w := DropServer(v, id);
    forall c | Owed(orders, w.cache, c)
      ensures Owed(orders, v.cache, c)
    {
    }
    NothingNew(orders, v, w);
  }

  lemma ServerUpdateKeeps(env: Env, v: View, id: Id, data: PartialServer)
    requires Inv(env.orders, v) && env.db.Keyed()
    requires PicksUp(v.cache, ServerUpdate(id, data))
    ensures Inv(env.orders, Handle(env, v, ServerUpdate(id, data)))
  {
    if id in v.cache.servers {
      var w := v.(cache := v.cache.(servers := v.cache.servers[id := UpdateServer(v.cache.servers[id], data)]));
      if data.defaultPermissions.Some? {
        OtherServersUntouched(env.orders, v, id, w);
        RecalculateRestores(env, w, id);
      } else {
        forall c | Owed(env.orders, w.cache, c)
          ensures Owed(env.orders, v.cache, c)
        {
        }
        NothingNew(env.orders, v, w);
      }
    }
  }

  lemma MemberUpdateKeeps(env: Env, v: View, id: Id, user: Id, data: PartialMember, clear: seq<MemberField>)
    requires Inv(env.orders, v) && env.db.Keyed()
    ensures Inv(env.orders, Handle(env, v, ServerMemberUpdate(id, user, data, clear)))
  {
    if user == v.cache.userId {
      if id in v.cache.members {
        var w := v.(cache := v.cache.(members := v.cache.members[id := UpdateMember(v.cache.members[id], data, clear)]));
        if data.roles.Some? || FieldRoles in clear {
          OtherServersUntouched(env.orders, v, id, w);
          RecalculateRestores(env, w, id);
        } else {
          forall c | Owed(env.orders, w.cache, c)
            ensures Owed(env.orders, v.cache, c)
          {
          }
          NothingNew(env.orders, v, w);
        }
      } else if data.roles.Some? || FieldRoles in clear {
        RecalculateRestores(env, v, id);
      }
    }
  }

  /** A change to a role that we do not hold is invisible to us. */
  lemma UnheldRoleInvisible(orders: Iteration, v: View, id: Id, roles: map<Id, Role>, c: Id)
    requires v.cache.userId in v.cache.users && id in v.cache.servers
    requires id in v.cache.members ==>
               forall r <- v.cache.members[id].roles ::
                 && (r in roles <==> r in v.cache.servers[id].roles)
                 && (r in roles ==> roles[r] == v.cache.servers[id].roles[r])
    requires Owed(orders, SetRoles(v, id, roles).cache, c)
    ensures Owed(orders, v.cache, c)
  {
    var channel := v.cache.channels[c];
    if channel.server == id {
      var server, member := v.cache.servers[id], v.cache.members[id];
      var order := orders(channel.id);
      OnlyHeldMatter(order.roles, ServerEntries(server.roles), ServerEntries(roles), member.roles);
      OnlyHeldMatter(order.overrides, ChannelEntries(channel.rolePermissions, server.roles),
                     ChannelEntries(channel.rolePermissions, roles), member.roles);
    }
  }

  lemma RoleChangeKeeps(env: Env, v: View, id: Id, roles: map<Id, Role>, recalculate: bool)
    requires Inv(env.orders, v) && env.db.Keyed() && id in v.cache.servers
    requires !recalculate && id in v.cache.members ==>
               forall r <- v.cache.members[id].roles ::
                 && (r in roles <==> r in v.cache.servers[id].roles)
                 && (r in roles ==> roles[r] == v.cache.servers[id].roles[r])
    ensures var w := SetRoles(v, id, roles);
            Inv(env.orders, if recalculate then Recalculate(env, w, id) else w)
  {
    var w := SetRoles(v, id, roles);
    if recalculate {
      OtherServersUntouched(env.orders, v, id, w);
      RecalculateRestores(env, w, id);
    } else {
      forall c | Owed(env.orders, w.cache, c)
        ensures Owed(env.orders, v.cache, c)
      {
        UnheldRoleInvisible(env.orders, v, id, roles, c);
      }
      NothingNew(env.orders, v, w);
    }
  }

  lemma RoleUpdateKeeps(env: Env, v: View, id: Id, role: Id, data: PartialRole)
    requires Inv(env.orders, v) && env.db.Keyed()
    ensures Inv(env.orders, Handle(env, v, ServerRoleUpdate(id, role, data)))
  {
    var recalculate := (data.rank.Some? || data.permissions.Some?) && HoldsRole(v.cache, id, role);
    if id in v.cache.servers && role in v.cache.servers[id].roles {
      var roles := v.cache.servers[id].roles;
      RoleChangeKeeps(env, v, id, roles[role := UpdateRole(roles[role], data)], recalculate);
    } else if recalculate {
      RecalculateRestores(env, v, id);
    }
  }

  lemma RoleDeleteKeeps(env: Env, v: View, id: Id, role: Id)
    requires Inv(env.orders, v) && env.db.Keyed()
    ensures Inv(env.orders, Handle(env, v, ServerRoleDelete(id, role)))
  {
    if id in v.cache.servers {
      RoleChangeKeeps(env, v, id, v.cache.servers[id].roles - {role}, HoldsRole(v.cache, id, role));
    } else if HoldsRole(v.cache, id, role) {
      RecalculateRestores(env, v, id);
    }
  }

  lemma SmallEventKeeps(env: Env, v: View, e: Event)
    requires Inv(env.orders, v)
    requires e.ChannelCreate? || e.ChannelDelete? || e.ChannelGroupJoin? || e.ChannelGroupLeave? || e.UserUpdate? || e.UserRelationship?
    requires WellFormed(v.cache, e) && PicksUp(v.cache, e)
    ensures Inv(env.orders, Handle(env, v, e))
  {
    var w := Handle(env, v, e);
    forall c | Owed(env.orders, w.cache, c)
      ensures ChannelTopic(c) in w.subscribed
    {
      assert (e.ChannelCreate? && c == e.channel.id) || Owed(env.orders, v.cache, c);
    }
  }

  /** Every event that picks up what it makes visible keeps the agreement. */
  lemma EventKeeps(env: Env, v: View, e: Event)
    requires Inv(env.orders, v) && env.db.Keyed()
    requires WellFormed(v.cache, e) && PicksUp(v.cache, e)
    ensures Inv(env.orders, Handle(env, v, e))
  {
    match e
    case ChannelUpdate(id, data, clearDefaults) => ChannelUpdateKeeps(env, v, id, data, clearDefaults);
    case ServerCreate(id, server, channels) => ServerCreateKeeps(env, v, id, server, channels);
    case ServerUpdate(id, data) => ServerUpdateKeeps(env, v, id, data);
    case ServerMemberLeave(id, user) => DropServerKeeps(env.orders, v, id);
    case ServerDelete(id) => DropServerKeeps(env.orders, v, id);
    case ServerMemberUpdate(id, user, data, clear) => MemberUpdateKeeps(env, v, id, user, data, clear);
    case ServerRoleUpdate(id, role, data) => RoleUpdateKeeps(env, v, id, role, data);
    case ServerRoleDelete(id, role) => RoleDeleteKeeps(env, v, id, role);
    case Bulk(_) =>
    case Other =>
    case _ => SmallEventKeeps(env, v, e);
  }

  // ---------------------------------------------------------------------
  // Exactly these events

  /** A cache with one server, one channel and nothing subscribed; our own record is
      that of `me`. */
  function Bare(userId: Id, me: Id, id: Id, owner: Id, held: seq<Id>, roles: map<Id, Role>, defaults: Bits): View {
    View(Cache(userId, false, map[userId := User(me, false, map[])],
               map["c" := TextChannel("c", id, None, map[])],
               map[id := Member(id, userId, held, None, true, true)],
               map[id := Server(id, owner, [], roles, defaults)], []),
         {})
  }

  function BareEnv(order: seq<Id>): Env {
    Env(Db(map[], map[], map[]), _ => Orders(order, []), 0, true)
  }

  /** One held role that denies ViewChannel hides the channel; none, and it shows
      through the defaults. */
  lemma BareVisible(order: seq<Id>, user: User, server: Server, member: Member)
    requires !user.privileged && server.owner != user.id
    ensures var channel := TextChannel("c", server.id, None, map[]);
            (Visible(Orders(order, []), user, channel, server, member) <==>
             VIEW_CHANNEL in Fold(server.defaultPermissions, ServerOverrides(server, member, order)))
  {
    var channel := TextChannel("c", server.id, None, map[]);
    var p := Fold(server.defaultPermissions, ServerOverrides(server, member, order));
    assert ChannelOverrides(channel, server, member, []) == [];
    assert [DefaultOverride(channel)] + [] == [NO_OVERRIDE];
    assert Fold(p, [NO_OVERRIDE]) == Apply(p, NO_OVERRIDE) == p;
  }

  lemma BareHidden(
    userId: Id, me: Id, id: Id, owner: Id, order: seq<Id>, held: seq<Id>, roles: map<Id, Role>, defaults: Bits)
    requires owner != me
    requires var server := Bare(userId, me, id, owner, held, roles, defaults).cache.servers[id];
             var member := Bare(userId, me, id, owner, held, roles, defaults).cache.members[id];
             VIEW_CHANNEL !in Fold(defaults, ServerOverrides(server, member, order))
    ensures Inv(BareEnv(order).orders, Bare(userId, me, id, owner, held, roles, defaults))
  {
    var v := Bare(userId, me, id, owner, held, roles, defaults);
    BareVisible(order, v.cache.users[userId], v.cache.servers[id], v.cache.members[id]);
  }

  lemma NoRoles(server: Server, member: Member, order: seq<Id>)
    requires forall r <- order :: r !in server.roles
    ensures Fold(server.defaultPermissions, ServerOverrides(server, member, order)) == server.defaultPermissions
  {
    NoneHeld(order, ServerEntries(server.roles), member.roles);
  }

  lemma {:induction false} NoneHeld(order: seq<Id>, entries: map<Id, Ranked>, held: seq<Id>)
    requires forall r <- order :: r !in entries
    ensures Held(order, entries, held) == []
  {
    if order != [] {
      assert order[0] in order;
      NoneHeld(order[1..], entries, held);
    }
  }

  lemma OneHeld(role: Id, entries: map<Id, Ranked>)
    requires role in entries
    ensures Permissions(SortByRank(Held([role], entries, [role]))) == [entries[role].permissions]
  {
    var e := entries[role];
    assert Held([role][1..], entries, [role]) == [];
    assert Held([role], entries, [role]) == [e];
    assert SortByRank([e][1..]) == [];
    assert SortByRank([e]) == Insert(e, []) == [e];
  }

  const DENY_VIEW := Override({}, {VIEW_CHANNEL})

  function Denying(role: Id): map<Id, Role> {
    map[role := Role(0, DENY_VIEW)]
  }

  lemma DenyingRole(id: Id, userId: Id, me: Id, owner: Id, role: Id)
    ensures var v := Bare(userId, me, id, owner, [role], Denying(role), {VIEW_CHANNEL});
            VIEW_CHANNEL !in Fold({VIEW_CHANNEL}, ServerOverrides(v.cache.servers[id], v.cache.members[id], [role]))
  {
    var v := Bare(userId, me, id, owner, [role], Denying(role), {VIEW_CHANNEL});
    OneHeld(role, ServerEntries(v.cache.servers[id].roles));
    assert Fold({VIEW_CHANNEL}, [DENY_VIEW]) == Apply({VIEW_CHANNEL}, DENY_VIEW);
  }

  /** Becoming the owner is not picked up without new defaults. */
  lemma OwnershipMissed(userId: Id, me: Id, id: Id, owner: Id, data: PartialServer)
    requires owner != me && data.defaultPermissions.None? && data.owner == Some(me)
    ensures var v := Bare(userId, me, id, owner, [], map[], {});
            var w := Handle(BareEnv([]), v, ServerUpdate(id, data));
            && Inv(BareEnv([]).orders, v)
            && Owed(BareEnv([]).orders, w.cache, "c") && ChannelTopic("c") !in w.subscribed
  {
    var v := Bare(userId, me, id, owner, [], map[], {});
    NoRoles(v.cache.servers[id], v.cache.members[id], []);
    BareHidden(userId, me, id, owner, [], [], map[], {});
  }

  /** Nor is a new role map. */
  lemma RolesMissed(userId: Id, me: Id, id: Id, owner: Id, data: PartialServer, role: Id)
    requires owner != me && data.defaultPermissions.None? && data.roles.Some? && role !in data.roles.value
    ensures var v := Bare(userId, me, id, owner, [role], Denying(role), {VIEW_CHANNEL});
            var w := Handle(BareEnv([role]), v, ServerUpdate(id, data));
            && Inv(BareEnv([role]).orders, v)
            && Owed(BareEnv([role]).orders, w.cache, "c") && ChannelTopic("c") !in w.subscribed
  {
    var v := Bare(userId, me, id, owner, [role], Denying(role), {VIEW_CHANNEL});
    DenyingRole(id, userId, me, owner, role);
    BareHidden(userId, me, id, owner, [role], [role], Denying(role), {VIEW_CHANNEL});
    var w := Handle(BareEnv([role]), v, ServerUpdate(id, data));
    var server := w.cache.servers[id];
    NoRoles(server, w.cache.members[id], [role]);
    if server.owner != me {
      BareVisible([role], w.cache.users[userId], server, w.cache.members[id]);
    }
  }

  /** A relationship event carries our own ID and the other person's record, and is
      stored as our own: from then on we see what that person owns, unsubscribed. */
  lemma StrangerMissed(userId: Id, me: Id, profile: User)
    requires profile.id != me
    ensures var v := Bare(userId, me, "s", profile.id, [], map[], {});
            var w := Handle(BareEnv([]), v, UserRelationship(userId, profile));
            && Inv(BareEnv([]).orders, v) && w.cache.users[userId].id != me
            && Owed(BareEnv([]).orders, w.cache, "c") && ChannelTopic("c") !in w.subscribed
  {
    var v := Bare(userId, me, "s", profile.id, [], map[], {});
    NoRoles(v.cache.servers["s"], v.cache.members["s"], []);
    BareHidden(userId, me, "s", profile.id, [], [], map[], {});
  }

  lemma PrivilegeMissed(userId: Id, me: Id, owner: Id, profile: User)
    requires owner != me && profile.privileged
    ensures var v := Bare(userId, me, "s", owner, [], map[], {});
            var w := Handle(BareEnv([]), v, UserRelationship(userId, profile));
            && Inv(BareEnv([]).orders, v)
            && Owed(BareEnv([]).orders, w.cache, "c") && ChannelTopic("c") !in w.subscribed
  {
    var v := Bare(userId, me, "s", owner, [], map[], {});
    NoRoles(v.cache.servers["s"], v.cache.members["s"], []);
    BareHidden(userId, me, "s", owner, [], [], map[], {});
  }

  /** A state of a connection of `userId` with the record of `me`, before an event. */
  ghost predicate Meets(userId: Id, me: Id, env: Env, v: View, e: Event) {
    && v.cache.userId == userId && Inv(env.orders, v) && v.cache.users[userId].id == me
    && env.db.Keyed() && WellFormed(v.cache, e)
  }

  /** The event keeps the agreement in every connection state. */
  ghost predicate AlwaysKeeps(userId: Id, me: Id, e: Event) {
    forall env: Env, v: View :: Meets(userId, me, env, v, e) ==> Inv(env.orders, Handle(env, v, e))
  }

  lemma Refutes(userId: Id, me: Id, e: Event, env: Env, v: View)
    requires Meets(userId, me, env, v, e) && !Inv(env.orders, Handle(env, v, e))
    ensures !AlwaysKeeps(userId, me, e)
  {
  }

  lemma MissesOwnership(userId: Id, me: Id, e: Event)
    requires e.ServerUpdate? && e.serverData.defaultPermissions.None? && e.serverData.owner == Some(me)
    ensures !AlwaysKeeps(userId, me, e)
  {
    var owner := FreshId({me});
    OwnershipMissed(userId, me, e.id, owner, e.serverData);
    Refutes(userId, me, e, BareEnv([]), Bare(userId, me, e.id, owner, [], map[], {}));
  }

  lemma MissesRoles(userId: Id, me: Id, e: Event)
    requires e.ServerUpdate? && e.serverData.defaultPermissions.None? && e.serverData.roles.Some?
    ensures !AlwaysKeeps(userId, me, e)
  {
    var owner := FreshId({me});
    var role := FreshId(e.serverData.roles.value.Keys);
    RolesMissed(userId, me, e.id, owner, e.serverData, role);
    Refutes(userId, me, e, BareEnv([role]), Bare(userId, me, e.id, owner, [role], Denying(role), {VIEW_CHANNEL}));
  }

  lemma MissesRecord(userId: Id, me: Id, e: Event)
    requires e.UserRelationship? && e.id == userId && (e.profile.id != me || e.profile.privileged)
    ensures !AlwaysKeeps(userId, me, e)
  {
    if e.profile.id != me {
      StrangerMissed(userId, me, e.profile);
      Refutes(userId, me, e, BareEnv([]), Bare(userId, me, "s", e.profile.id, [], map[], {}));
    } else {
      var owner := FreshId({me});
      PrivilegeMissed(userId, me, owner, e.profile);
      Refutes(userId, me, e, BareEnv([]), Bare(userId, me, "s", owner, [], map[], {}));
    }
  }

  /** The events that always keep the agreement are exactly those that pick up what
      they make visible. */
  lemma PicksUpExactly(userId: Id, me: Id, e: Event)
    ensures AlwaysKeeps(userId, me, e) <==> PicksUpFor(userId, me, e)
  {
    if PicksUpFor(userId, me, e) {
      forall env: Env, v: View | Meets(userId, me, env, v, e)
        ensures Inv(env.orders, Handle(env, v, e))
      {
        EventKeeps(env, v, e);
      }
    } else if e.UserRelationship? {
      MissesRecord(userId, me, e);
    } else if e.serverData.owner == Some(me) {
      MissesOwnership(userId, me, e);
    } else {
      MissesRoles(userId, me, e);
    }
  }

  // ---------------------------------------------------------------------
  // Iteration orders

  /** A cached server channel with everything its viewability test needs cached. */
  predicate Judged(cache: Cache, c: Id) {
    c in cache.channels && cache.channels[c].TextChannel? && Cached(cache, cache.channels[c].server)
  }

  /** The orders list the hash maps they stand for. */
  ghost predicate Ordered(orders: Iteration, cache: Cache) {
    forall c :: Judged(cache, c) ==>
      var channel := cache.channels[c];
      OrdersFor(channel, cache.servers[channel.server], orders(channel.id))
  }

  /** No bit is disputed between two of our roles of the rank that decides it. */
  ghost predicate Calm(orders: Iteration, cache: Cache) {
    forall c :: Judged(cache, c) ==>
      var channel := cache.channels[c];
      UndisputedFor(channel, cache.servers[channel.server], cache.members[channel.server], orders(channel.id))
  }

  lemma OwedAnyOrder(orders: Iteration, orders': Iteration, cache: Cache, c: Id)
    requires cache.userId in cache.users && Judged(cache, c)
    requires Ordered(orders, cache) && Ordered(orders', cache) && Calm(orders, cache)
    ensures Owed(orders, cache, c) <==> Owed(orders', cache, c)
  {
    var channel := cache.channels[c];
    var server, member := cache.servers[channel.server], cache.members[channel.server];
    var o, o' := orders(channel.id), orders'(channel.id);
    var base := server.defaultPermissions;
    SameFolds(base, Fold(base, ServerOverrides(server, member, o.roles)), channel, server, member, o, o');
  }

  /** The agreement does not depend on how hash maps iterate. */
  lemma InvAnyOrder(orders: Iteration, orders': Iteration, v: View)
    requires Inv(orders, v) && Ordered(orders, v.cache) && Ordered(orders', v.cache) && Calm(orders, v.cache)
    ensures Inv(orders', v)
  {
    forall c | Owed(orders', v.cache, c)
      ensures ChannelTopic(c) in v.subscribed
    {
      OwedAnyOrder(orders, orders', v.cache, c);
    }
  }

  /** From one event to the next, maps keep their order or nothing depends on it. */
  ghost predicate Reorders(orders: Iteration, orders': Iteration, cache: Cache) {
    orders' == orders || (Ordered(orders, cache) && Ordered(orders', cache) && Calm(orders, cache))
  }

  // ---------------------------------------------------------------------
  // Whole runs

  /** A run of events, each with its own database state and iteration orders. */
  function RunEvents(v: View, inputs: seq<(Env, Event)>): View
    requires v.cache.userId in v.cache.users
    decreases inputs
  {
    if inputs == [] then v
    else RunEvents(Handle(inputs[0].0, v, inputs[0].1), inputs[1..])
  }

  /** The orders last met. */
  function LastOrders(orders: Iteration, inputs: seq<(Env, Event)>): Iteration {
    if inputs == [] then orders else inputs[|inputs| - 1].0.orders
  }

  ghost predicate GoodInput(orders: Iteration, cache: Cache, env: Env, e: Event)
    requires cache.userId in cache.users
  {
    env.db.Keyed() && Reorders(orders, env.orders, cache) && WellFormed(cache, e) && PicksUp(cache, e)
  }

  ghost predicate GoodInputs(orders: Iteration, v: View, inputs: seq<(Env, Event)>)
    requires v.cache.userId in v.cache.users
    decreases inputs
  {
    inputs != [] ==>
      var (env, e) := inputs[0];
      && GoodInput(orders, v.cache, env, e)
      && GoodInputs(env.orders, Handle(env, v, e), inputs[1..])
  }

  lemma GoodInputKeeps(orders: Iteration, v: View, env: Env, e: Event)
    requires Inv(orders, v) && GoodInput(orders, v.cache, env, e)
    ensures Inv(env.orders, Handle(env, v, e))
  {
    if env.orders != orders {
      InvAnyOrder(orders, env.orders, v);
    }
    EventKeeps(env, v, e);
  }

  /** Over every run, each visible cached channel is subscribed. */
  lemma {:induction false} RunKeeps(orders: Iteration, v: View, inputs: seq<(Env, Event)>)
    requires Inv(orders, v) && GoodInputs(orders, v, inputs)
    ensures Inv(LastOrders(orders, inputs), RunEvents(v, inputs))
    decreases inputs
  {
    if inputs != [] {
      var (env, e) := inputs[0];
      GoodInputKeeps(orders, v, env, e);
      RunKeeps(env.orders, Handle(env, v, e), inputs[1..]);
    }
  }
}
