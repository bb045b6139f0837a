/** Who decides a permission bit, said on the stored records alone: of the held roles that
    mention it those of lowest rank, and else what lies below. */
module Decisions {
  import opened Entities
  import opened Overrides
  import opened RoleOrder

  // ---------------------------------------------------------------------
  // On the server

  /** A held role of the server allows or denies the bit. */
  ghost predicate RoleSpeaks(server: Server, member: Member, id: Id, b: Bit) {
    && id in member.roles && id in server.roles
    && (b in server.roles[id].permissions.allow || b in server.roles[id].permissions.deny)
  }

  /** No held role that speaks of the bit has a lower rank. */
  ghost predicate RoleDecides(server: Server, member: Member, id: Id, b: Bit) {
    && RoleSpeaks(server, member, id, b)
    && forall j :: RoleSpeaks(server, member, j, b) ==> server.roles[id].rank <= server.roles[j].rank
  }

  ghost predicate RolesAgree(server: Server, member: Member, b: Bit) {
    forall i, j :: RoleDecides(server, member, i, b) && RoleDecides(server, member, j, b) ==>
      (b in server.roles[i].permissions.deny <==> b in server.roles[j].permissions.deny)
  }

  /** The server grants the bit: a deciding role does not deny it, or no role speaks of it
      and the defaults have it. */
  ghost predicate ServerSays(server: Server, member: Member, b: Bit) {
    || (exists id :: RoleDecides(server, member, id, b) && b !in server.roles[id].permissions.deny)
    || ((forall id :: !RoleSpeaks(server, member, id, b)) && b in server.defaultPermissions)
  }

  lemma {:induction false} HeldMember(order: seq<Id>, entries: map<Id, Ranked>, held: seq<Id>, id: Id)
    requires id in order && id in entries && id in held
    ensures entries[id] in Held(order, entries, held)
  {
    if order[0] != id {
      HeldMember(order[1..], entries, held, id);
    }
  }

  lemma {:induction false} HeldFrom(order: seq<Id>, entries: map<Id, Ranked>, held: seq<Id>, e: Ranked) returns (id: Id)
    requires e in Held(order, entries, held)
    ensures id in order && id in entries && id in held && entries[id] == e
  {
    if order[0] in entries && order[0] in held && entries[order[0]] == e {
      id := order[0];
    } else {
      id := HeldFrom(order[1..], entries, held, e);
    }
  }

  /** The override fold of a member's server roles does what the deciding roles say. */
  lemma ServerFoldSays(server: Server, member: Member, order: seq<Id>, b: Bit)
    requires Lists(order, server.roles) && RolesAgree(server, member, b)
    ensures b in FoldByRank(server.defaultPermissions, Held(order, ServerEntries(server.roles), member.roles)) <==>
            ServerSays(server, member, b)
  {
    var entries := ServerEntries(server.roles);
    var held := Held(order, entries, member.roles);
    var found, e := Decider(server.defaultPermissions, held, b);
    forall id | RoleSpeaks(server, member, id, b)
      ensures entries[id] in held && Mentions(entries[id].permissions, b) && entries[id].rank == server.roles[id].rank
    {
      HeldMember(order, entries, member.roles, id);
    }
    if found {
      var id := HeldFrom(order, entries, member.roles, e);
      assert RoleSpeaks(server, member, id, b);
      assert RoleDecides(server, member, id, b);
    }
  }

  // ---------------------------------------------------------------------
  // On the channel

  /** A held role has an override for the channel that allows or denies the bit; roles that
      the server does not know do not count. */
  ghost predicate OverrideSpeaks(channel: Channel, server: Server, member: Member, id: Id, b: Bit)
    requires channel.TextChannel?
  {
    && id in member.roles && id in server.roles && id in channel.rolePermissions
    && (b in channel.rolePermissions[id].allow || b in channel.rolePermissions[id].deny)
  }

  ghost predicate OverrideDecides(channel: Channel, server: Server, member: Member, id: Id, b: Bit)
    requires channel.TextChannel?
  {
    && OverrideSpeaks(channel, server, member, id, b)
    && forall j :: OverrideSpeaks(channel, server, member, j, b) ==> server.roles[id].rank <= server.roles[j].rank
  }

  ghost predicate OverridesAgree(channel: Channel, server: Server, member: Member, b: Bit)
    requires channel.TextChannel?
  {
    forall i, j :: OverrideDecides(channel, server, member, i, b) && OverrideDecides(channel, server, member, j, b) ==>
      (b in channel.rolePermissions[i].deny <==> b in channel.rolePermissions[j].deny)
  }

  /** What the channel's defaults make of a bit. */
  predicate DefaultsSay(channel: Channel, b: Bit, below: bool)
    requires channel.TextChannel?
  {
    if channel.defaults.Some? && b in channel.defaults.value.deny then false
    else if channel.defaults.Some? && b in channel.defaults.value.allow then true
    else below
  }

  /** The channel grants the bit: a deciding override does not deny it, or no held role has
      a say and the channel's defaults, or else the server, grant it. */
  ghost predicate ChannelSays(channel: Channel, server: Server, member: Member, b: Bit, below: bool)
    requires channel.TextChannel?
  {
    || (exists id :: OverrideDecides(channel, server, member, id, b) && b !in channel.rolePermissions[id].deny)
    || ((forall id :: !OverrideSpeaks(channel, server, member, id, b)) && DefaultsSay(channel, b, below))
  }

  lemma ChannelFoldSays(channel: Channel, server: Server, member: Member, order: seq<Id>, p: Bits, b: Bit)
    requires channel.TextChannel? && Lists(order, channel.rolePermissions) && OverridesAgree(channel, server, member, b)
    ensures var base := if channel.defaults.Some? then Apply(p, channel.defaults.value) else p;
            b in FoldByRank(base, Held(order, ChannelEntries(channel.rolePermissions, server.roles), member.roles)) <==>
            ChannelSays(channel, server, member, b, b in p)
  {
    var base := if channel.defaults.Some? then Apply(p, channel.defaults.value) else p;
    var entries := ChannelEntries(channel.rolePermissions, server.roles);
    var held := Held(order, entries, member.roles);
    var found, e := Decider(base, held, b);
    forall id | OverrideSpeaks(channel, server, member, id, b)
      ensures entries[id] in held && Mentions(entries[id].permissions, b) && entries[id].rank == server.roles[id].rank
    {
      HeldMember(order, entries, member.roles, id);
    }
    if found {
      var id := HeldFrom(order, entries, member.roles, e);
      assert OverrideSpeaks(channel, server, member, id, b);
      assert OverrideDecides(channel, server, member, id, b);
    }
  }
}
