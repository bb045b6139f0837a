/** The single-user permission calculators for servers and server channels. */
module Calculators {
  import opened Entities
  import opened Overrides
  import opened RoleOrder
  import opened Decisions

  /** Iteration orders of the server's role map and of the channel's override map. */
  datatype Orders = Orders(roles: seq<Id>, overrides: seq<Id>)

  // ---------------------------------------------------------------------
  // Specification

  function HeldServerRoles(server: Server, member: Member, order: seq<Id>): seq<Ranked> {
    Held(order, ServerEntries(server.roles), member.roles)
  }

  function HeldChannelRoles(channel: Channel, server: Server, member: Member, order: seq<Id>): seq<Ranked>
    requires channel.TextChannel?
  {
    Held(order, ChannelEntries(channel.rolePermissions, server.roles), member.roles)
  }

  function ServerOverrides(server: Server, member: Member, order: seq<Id>): seq<Override> {
    Permissions(SortByRank(HeldServerRoles(server, member, order)))
  }

  function ChannelOverrides(channel: Channel, server: Server, member: Member, order: seq<Id>): seq<Override>
    requires channel.TextChannel?
  {
    Permissions(SortByRank(HeldChannelRoles(channel, server, member, order)))
  }

  function DefaultOverride(channel: Channel): Override
    requires channel.TextChannel?
  {
    if channel.defaults.Some? then channel.defaults.value else NO_OVERRIDE
  }

  /** The bits that voice moderation takes from a member. */
  function VoiceRevoked(member: Member): Bits {
    (if member.canPublish then {} else {SPEAK, VIDEO}) + (if member.canReceive then {} else {LISTEN})
  }

  function Restricted(p: Bits, member: Member, now: int): Bits {
    if member.InTimeout(now) then p * ALLOW_IN_TIMEOUT else p
  }

  function ServerStage(base: Bits, os: seq<Override>, member: Member, now: int): Bits {
    Restricted(Fold(base, os) - VoiceRevoked(member), member, now)
  }

  /** The value before the final check for ViewChannel. */
  function BeforeGate(base: Bits, serverOs: seq<Override>, channelOs: seq<Override>, member: Member, now: int): Bits {
    Restricted(Fold(ServerStage(base, serverOs, member, now), channelOs), member, now)
  }

  function Gate(p: Bits): Bits {
    if VIEW_CHANNEL in p then p else {}
  }

  function MemberChannelPermissions(
    channel: Channel, server: Server, member: Member, orders: Orders, now: int): Bits
    requires channel.TextChannel?
  {
    Gate(BeforeGate(server.defaultPermissions, ServerOverrides(server, member, orders.roles),
                    [DefaultOverride(channel)] + ChannelOverrides(channel, server, member, orders.overrides),
                    member, now))
  }

  /** The server a query ends up with: the known one if it is the right one,
      else the fetched one, else still the known one. */
  function ResolveServer(db: Db, known: Option<Server>, id: Id): Option<Server> {
    if known.Some? && known.value.id == id then known
    else if db.FetchServer(id).Some? then db.FetchServer(id)
    else known
  }

  function ResolveMember(db: Db, known: Option<Member>, server: Server, user: Id): Option<Member> {
    if known.Some? then known else db.FetchMember(server.id, user)
  }

  function ServerPermissions(
    db: Db, user: User, server: Option<Server>, known: Option<Member>, order: seq<Id>, now: int): Bits
  {
    if user.privileged || (server.Some? && server.value.owner == user.id) then GRANT_ALL_SAFE
    else if server.None? then {}
    else
      match ResolveMember(db, known, server.value, user.id)
      case None => {}
      case Some(m) =>
        ServerStage(server.value.defaultPermissions, ServerOverrides(server.value, m, order), m, now)
  }

  function ChannelPermissions(
    db: Db, user: User, channel: Channel, known: Option<Server>, member: Option<Member>, orders: Orders, now: int): Bits
    requires channel.TextChannel?
  {
    if user.privileged then GRANT_ALL_SAFE
    else
      match ResolveServer(db, known, channel.server)
      case None => {}
      case Some(server) =>
        if server.owner == user.id then GRANT_ALL_SAFE
        else
          match ResolveMember(db, member, server, user.id)
          case None => {}
          case Some(m) => MemberChannelPermissions(channel, server, m, orders, now)
  }

  // ---------------------------------------------------------------------
  // What the calculators answer, said on the stored records alone

  /** The member record a query works with: the known one, else the database's. */
  ghost predicate IsMember(db: Db, known: Option<Member>, server: Id, user: Id, m: Member) {
    known == Some(m) || (known.None? && (server, user) in db.members && db.members[(server, user)] == m)
  }

  ghost predicate Outsider(db: Db, known: Option<Member>, server: Id, user: Id) {
    known.None? && (server, user) !in db.members
  }

  /** In a timeout only bits 20 and 21 (ViewChannel, ReadMessageHistory) are left. */
  predicate InTime(m: Member, now: int, b: Bit) {
    m.timeout.Some? && m.timeout.value > now ==> b == 20 || b == 21
  }

  /** Who may not publish loses bits 31 and 32 (Speak, Video), who may not receive bit 36
      (Listen). */
  predicate Unmoderated(m: Member, now: int, b: Bit) {
    && (b == 31 || b == 32 ==> m.canPublish) && (b == 36 ==> m.canReceive) && InTime(m, now, b)
  }

  /** Every safe permission: the lower 52 bits. */
  ghost predicate AllSafe(r: Bits) {
    forall b: Bit :: b in r <==> b < 52
  }

  lemma ServerStageSays(server: Server, m: Member, order: seq<Id>, now: int, b: Bit)
    requires Lists(order, server.roles) && RolesAgree(server, m, b)
    ensures b in ServerStage(server.defaultPermissions, ServerOverrides(server, m, order), m, now) <==>
            ServerSays(server, m, b) && Unmoderated(m, now, b)
  {
    ServerFoldSays(server, m, order, b);
  }

  /** The server value, bit by bit: nothing for strangers, everything for the privileged and
      the owner, and for a member what the deciding roles say, less moderation. */
  ghost predicate ServerVerdict(
    db: Db, user: User, server: Option<Server>, known: Option<Member>, order: seq<Id>, now: int, r: Bits)
  {
    && (user.privileged || (server.Some? && server.value.owner == user.id) ==> AllSafe(r))
    && (!user.privileged && server.None? ==> r == {})
    && (!user.privileged && server.Some? && server.value.owner != user.id ==>
          && (Outsider(db, known, server.value.id, user.id) ==> r == {})
          && (forall m, b: Bit :: IsMember(db, known, server.value.id, user.id, m)
                                  && Lists(order, server.value.roles) && RolesAgree(server.value, m, b) ==>
                (b in r <==> ServerSays(server.value, m, b) && Unmoderated(m, now, b))))
  }

  lemma ServerVerdictHolds(
    db: Db, user: User, server: Option<Server>, known: Option<Member>, order: seq<Id>, now: int)
    ensures ServerVerdict(db, user, server, known, order, now, ServerPermissions(db, user, server, known, order, now))
  {
    if server.Some? {
      forall m, b: Bit | Lists(order, server.value.roles) && RolesAgree(server.value, m, b)
        ensures b in ServerStage(server.value.defaultPermissions, ServerOverrides(server.value, m, order), m, now) <==>
                ServerSays(server.value, m, b) && Unmoderated(m, now, b)
      {
        ServerStageSays(server.value, m, order, now, b);
      }
    }
  }

  /** The server a query works with: the known one if it is the channel's, else the
      database's, and if there is none, still the known one. */
  ghost predicate IsServer(db: Db, known: Option<Server>, id: Id, s: Server) {
    || (known == Some(s) && (s.id == id || id !in db.servers))
    || (!(known.Some? && known.value.id == id) && id in db.servers && db.servers[id] == s)
  }

  /** The bit is granted on the channel, before the final gate. */
  ghost predicate Granted(channel: Channel, server: Server, m: Member, now: int, b: Bit)
    requires channel.TextChannel?
  {
    ChannelSays(channel, server, m, b, ServerSays(server, m, b) && Unmoderated(m, now, b)) && InTime(m, now, b)
  }

  ghost predicate Clear(channel: Channel, server: Server, m: Member, orders: Orders, b: Bit)
    requires channel.TextChannel?
  {
    && Lists(orders.roles, server.roles) && Lists(orders.overrides, channel.rolePermissions)
    && RolesAgree(server, m, b) && OverridesAgree(channel, server, m, b)
  }

  lemma BeforeGateSays(channel: Channel, server: Server, m: Member, orders: Orders, now: int, b: Bit)
    requires channel.TextChannel? && Clear(channel, server, m, orders, b)
    ensures b in BeforeGate(server.defaultPermissions, ServerOverrides(server, m, orders.roles),
                            [DefaultOverride(channel)] + ChannelOverrides(channel, server, m, orders.overrides), m, now) <==>
            Granted(channel, server, m, now, b)
  {
    var p := ServerStage(server.defaultPermissions, ServerOverrides(server, m, orders.roles), m, now);
    var cos := ChannelOverrides(channel, server, m, orders.overrides);
    ServerStageSays(server, m, orders.roles, now, b);
    ChannelFoldSays(channel, server, m, orders.overrides, p, b);
    assert ([DefaultOverride(channel)] + cos)[1..] == cos;
    assert Apply(p, NO_OVERRIDE) == p;
  }

  /** A member's channel value, bit by bit: what is granted, if bit 20 (ViewChannel) is. */
  lemma MemberChannelSays(channel: Channel, server: Server, m: Member, orders: Orders, now: int, b: Bit)
    requires channel.TextChannel? && Clear(channel, server, m, orders, b) && Clear(channel, server, m, orders, 20)
    ensures b in MemberChannelPermissions(channel, server, m, orders, now) <==>
            Granted(channel, server, m, now, b) && Granted(channel, server, m, now, 20)
  {
    BeforeGateSays(channel, server, m, orders, now, b);
    BeforeGateSays(channel, server, m, orders, now, 20);
  }

  /** The channel value, bit by bit. */
  ghost predicate ChannelVerdict(
    db: Db, user: User, channel: Channel, known: Option<Server>, member: Option<Member>, orders: Orders, now: int, r: Bits)
    requires channel.TextChannel?
  {
    && (user.privileged ==> AllSafe(r))
    && (!user.privileged && known.None? && channel.server !in db.servers ==> r == {})
    && (forall s :: !user.privileged && IsServer(db, known, channel.server, s) ==>
          && (s.owner == user.id ==> AllSafe(r))
          && (s.owner != user.id && Outsider(db, member, s.id, user.id) ==> r == {}))
    && (forall s, m, b: Bit ::
          !user.privileged && IsServer(db, known, channel.server, s) && s.owner != user.id
          && IsMember(db, member, s.id, user.id, m) && Clear(channel, s, m, orders, b) && Clear(channel, s, m, orders, 20) ==>
            (b in r <==> Granted(channel, s, m, now, b) && Granted(channel, s, m, now, 20)))
  }

  lemma ChannelVerdictHolds(
    db: Db, user: User, channel: Channel, known: Option<Server>, member: Option<Member>, orders: Orders, now: int)
    requires channel.TextChannel?
    ensures ChannelVerdict(db, user, channel, known, member, orders, now,
                           ChannelPermissions(db, user, channel, known, member, orders, now))
  {
    var r := ChannelPermissions(db, user, channel, known, member, orders, now);
    forall s, m, b: Bit |
      !user.privileged && IsServer(db, known, channel.server, s) && s.owner != user.id
      && IsMember(db, member, s.id, user.id, m) && Clear(channel, s, m, orders, b) && Clear(channel, s, m, orders, 20)
      ensures b in r <==> Granted(channel, s, m, now, b) && Granted(channel, s, m, now, 20)
    {
      MemberChannelSays(channel, s, m, orders, now, b);
    }
  }

  // ---------------------------------------------------------------------
  // The calculators

  class DatabasePermissionQuery {
    const db: Db
    const perspective: User
    const channel: Channel
    const orders: Orders
    const now: int
    var server: Option<Server>
    var member: Option<Member>

    constructor (db: Db, perspective: User, channel: Channel, server: Option<Server>, member: Option<Member>,
                 orders: Orders, now: int)
      ensures this.db == db && this.perspective == perspective && this.channel == channel
      ensures this.orders == orders && this.now == now
      ensures this.server == server && this.member == member
    {
      this.db, this.perspective, this.channel := db, perspective, channel;
      this.orders, this.now := orders, now;
      this.server, this.member := server, member;
    }

    predicate AreWeServerOwner()
      reads this
    {
      server.Some? && server.value.owner == perspective.id
    }

    /** Looks the member up once and keeps it on the query. */
    method AreWeAMember() returns (r: bool)
      modifies this`member
      ensures server.None? ==> !r && member == old(member)
      ensures server.Some? ==>
                && member == ResolveMember(db, old(member), server.value, perspective.id)
                && r == member.Some?
    {
      if server.None? {
        return false;
      }
      if member.None? {
        member := db.FetchMember(server.value.id, perspective.id);
      }
      r := member.Some?;
    }

    method SetServerFromChannel()
      requires channel.TextChannel?
      modifies this`server
      ensures server == ResolveServer(db, old(server), channel.server)
    {
      if server.Some? && server.value.id == channel.server {
        return;
      }
      var fetched := db.FetchServer(channel.server);
      if fetched.Some? {
        server := fetched;
      }
    }

    method CalculateServerPermissions() returns (r: Bits)
      modifies this`member
      ensures r == ServerPermissions(db, perspective, server, old(member), orders.roles, now)
      ensures ServerVerdict(db, perspective, server, old(member), orders.roles, now, r)
      ensures server.Some? && old(member).Some? ==> member == old(member)
    {
      ServerVerdictHolds(db, perspective, server, member, orders.roles, now);
      if perspective.privileged || AreWeServerOwner() {
        return GRANT_ALL_SAFE;
      }
      var isMember := AreWeAMember();
      if !isMember {
        return {};
      }
      var permissions := new PermissionValue(server.value.defaultPermissions);
      permissions.ApplyAll(ServerOverrides(server.value, member.value, orders.roles));
      if !member.value.canPublish {
        permissions.Revoke({SPEAK});
        permissions.Revoke({VIDEO});
      }
      if !member.value.canReceive {
        permissions.Revoke({LISTEN});
      }
      if member.value.InTimeout(now) {
        permissions.Restrict(ALLOW_IN_TIMEOUT);
      }
      r := permissions.raw;
    }

    /** The server channel branch of the channel calculator. */
    method CalculateChannelPermissions() returns (r: Bits)
      requires channel.TextChannel?
      modifies this`server, this`member
      ensures r == ChannelPermissions(db, perspective, channel, old(server), old(member), orders, now)
      ensures ChannelVerdict(db, perspective, channel, old(server), old(member), orders, now, r)
    {
      ChannelVerdictHolds(db, perspective, channel, server, member, orders, now);
      if perspective.privileged {
        return GRANT_ALL_SAFE;
      }
      SetServerFromChannel();
      if AreWeServerOwner() {
        return GRANT_ALL_SAFE;
      }
      var isMember := AreWeAMember();
      if !isMember {
        return {};
      }
      var serverValue := CalculateServerPermissions();
      var permissions := new PermissionValue(serverValue);
      permissions.ApplyOverride(DefaultOverride(channel));
      var overrides := ChannelOverrides(channel, server.value, member.value, orders.overrides);
      permissions.ApplyAll(overrides);
      assert ([DefaultOverride(channel)] + overrides)[1..] == overrides;
      if member.value.InTimeout(now) {
        permissions.Restrict(ALLOW_IN_TIMEOUT);
      }
      if VIEW_CHANNEL !in permissions.raw {
        permissions.RevokeAll();
      }
      r := permissions.raw;
    }
  }

  // ---------------------------------------------------------------------
  // Viewability ignores voice moderation and timeouts

  /** Same server standing: two member records that differ only in timeout and voice flags. */
  predicate SameRoles(m: Member, n: Member) {
    m.roles == n.roles
  }

  /** ViewChannel after the whole pipeline is ViewChannel after the two folds alone. */
  lemma ViewSkipsRestrictions(base: Bits, serverOs: seq<Override>, channelOs: seq<Override>, member: Member, now: int)
    ensures VIEW_CHANNEL in BeforeGate(base, serverOs, channelOs, member, now)
       <==> VIEW_CHANNEL in Fold(Fold(base, serverOs), channelOs)
  {
    var s := ServerStage(base, serverOs, member, now);
    LastMentionDecides(s, channelOs, VIEW_CHANNEL);
    LastMentionDecides(Fold(base, serverOs), channelOs, VIEW_CHANNEL);
  }

  /** A member's view of a channel depends on neither their timeout, their voice
      flags nor the clock. */
  lemma ViewIgnoresTimeoutAndVoice(
    channel: Channel, server: Server, m: Member, n: Member, orders: Orders, now: int, now': int)
    requires channel.TextChannel? && SameRoles(m, n)
    ensures VIEW_CHANNEL in MemberChannelPermissions(channel, server, m, orders, now)
       <==> VIEW_CHANNEL in MemberChannelPermissions(channel, server, n, orders, now')
  {
    var base, os := server.defaultPermissions, ServerOverrides(server, m, orders.roles);
    var cos := [DefaultOverride(channel)] + ChannelOverrides(channel, server, m, orders.overrides);
    ViewSkipsRestrictions(base, os, cos, m, now);
    ViewSkipsRestrictions(base, os, cos, n, now');
  }

  // ---------------------------------------------------------------------
  // Accepted override edits, through the whole pipeline

  lemma StageGrows(base: Bits, os: seq<Override>, os': seq<Override>, member: Member, now: int, extra: Bits)
    requires Fold(base, os') - Fold(base, os) <= extra
    ensures ServerStage(base, os', member, now) - ServerStage(base, os, member, now) <= extra
  {
  }

  lemma ServerEditGrantsOnlyHeld(
    actor: Bits, base: Bits, serverOs: seq<Override>, channelOs: seq<Override>, member: Member, now: int,
    i: nat, current: Option<Override>, next: Override)
    requires if current.Some? then i < |serverOs| && serverOs[i] == current.value else i <= |serverOs|
    requires AcceptsEdit(actor, current, next)
    ensures BeforeGate(base, Edit(serverOs, i, current, next), channelOs, member, now)
            - BeforeGate(base, serverOs, channelOs, member, now) <= actor
  {
    var edited := Edit(serverOs, i, current, next);
    EditGrantsOnlyHeld(actor, base, serverOs, i, current, next);
    StageGrows(base, serverOs, edited, member, now, actor);
    FoldGrows(ServerStage(base, serverOs, member, now), ServerStage(base, edited, member, now), channelOs);
  }

  lemma ChannelEditGrantsOnlyHeld(
    actor: Bits, base: Bits, serverOs: seq<Override>, channelOs: seq<Override>, member: Member, now: int,
    i: nat, current: Option<Override>, next: Override)
    requires if current.Some? then i < |channelOs| && channelOs[i] == current.value else i <= |channelOs|
    requires AcceptsEdit(actor, current, next)
    ensures BeforeGate(base, serverOs, Edit(channelOs, i, current, next), member, now)
            - BeforeGate(base, serverOs, channelOs, member, now) <= actor
  {
    EditGrantsOnlyHeld(actor, ServerStage(base, serverOs, member, now), channelOs, i, current, next);
  }

  /** The folds show the channel. */
  predicate FoldsShow(base: Bits, serverOs: seq<Override>, channelOs: seq<Override>) {
    VIEW_CHANNEL in Fold(Fold(base, serverOs), channelOs)
  }

  lemma GateGrows(actor: Bits, before: Bits, after: Bits)
    requires after - before <= actor
    ensures Gate(after) - Gate(before) <= actor <==>
            !(VIEW_CHANNEL !in before && VIEW_CHANNEL in after && !(after <= actor))
  {
  }

  /** A bit that the actor lacks is granted before the gate, by the server stage and the
      channel's overrides taken as one. */
  predicate Grants(actor: Bits, base: Bits, serverOs: seq<Override>, channelOs: seq<Override>, member: Member, now: int) {
    var c := Collapse(channelOs);
    !(Restricted((ServerStage(base, serverOs, member, now) + c.allow) - c.deny, member, now) <= actor)
  }

  lemma GrantsExactly(
    actor: Bits, base: Bits, serverOs: seq<Override>, channelOs: seq<Override>, member: Member, now: int)
    ensures Grants(actor, base, serverOs, channelOs, member, now) <==>
            !(BeforeGate(base, serverOs, channelOs, member, now) <= actor)
  {
    FoldCollapses(ServerStage(base, serverOs, member, now), channelOs);
  }

  /** Through the final gate, an accepted edit of a server role still adds only bits that
      the actor holds, exactly unless the edit lets the folds show a hidden channel on
      which a bit that the actor lacks is granted. */
  lemma ServerEditGateExactly(
    actor: Bits, base: Bits, serverOs: seq<Override>, channelOs: seq<Override>, member: Member, now: int,
    i: nat, current: Option<Override>, next: Override)
    requires if current.Some? then i < |serverOs| && serverOs[i] == current.value else i <= |serverOs|
    requires AcceptsEdit(actor, current, next)
    ensures var edited := Edit(serverOs, i, current, next);
            Gate(BeforeGate(base, edited, channelOs, member, now)) - Gate(BeforeGate(base, serverOs, channelOs, member, now))
            <= actor
            <==> !(!FoldsShow(base, serverOs, channelOs) && FoldsShow(base, edited, channelOs)
                   && Grants(actor, base, edited, channelOs, member, now))
  {
    var edited := Edit(serverOs, i, current, next);
    ServerEditGrantsOnlyHeld(actor, base, serverOs, channelOs, member, now, i, current, next);
    ViewSkipsRestrictions(base, serverOs, channelOs, member, now);
    ViewSkipsRestrictions(base, edited, channelOs, member, now);
    GrantsExactly(actor, base, edited, channelOs, member, now);
    GateGrows(actor, BeforeGate(base, serverOs, channelOs, member, now), BeforeGate(base, edited, channelOs, member, now));
  }

  /** The same for an accepted edit of a channel override. */
  lemma ChannelEditGateExactly(
    actor: Bits, base: Bits, serverOs: seq<Override>, channelOs: seq<Override>, member: Member, now: int,
    i: nat, current: Option<Override>, next: Override)
    requires if current.Some? then i < |channelOs| && channelOs[i] == current.value else i <= |channelOs|
    requires AcceptsEdit(actor, current, next)
    ensures var edited := Edit(channelOs, i, current, next);
            Gate(BeforeGate(base, serverOs, edited, member, now)) - Gate(BeforeGate(base, serverOs, channelOs, member, now))
            <= actor
            <==> !(!FoldsShow(base, serverOs, channelOs) && FoldsShow(base, serverOs, edited)
                   && Grants(actor, base, serverOs, edited, member, now))
  {
    var edited := Edit(channelOs, i, current, next);
    ChannelEditGrantsOnlyHeld(actor, base, serverOs, channelOs, member, now, i, current, next);
    ViewSkipsRestrictions(base, serverOs, channelOs, member, now);
    ViewSkipsRestrictions(base, serverOs, edited, member, now);
    GrantsExactly(actor, base, serverOs, edited, member, now);
    GateGrows(actor, BeforeGate(base, serverOs, channelOs, member, now), BeforeGate(base, serverOs, edited, member, now));
  }

  /** Such a situation exists: an edit that only allows ViewChannel makes a hidden channel
      visible, and with it a bit that was granted behind the gate. */
  lemma GateCanUncover(member: Member, b: Bit)
    requires b != VIEW_CHANNEL && b !in VoiceRevoked(member) && !member.InTimeout(0)
    ensures var next := Override({VIEW_CHANNEL}, {});
            && AcceptsEdit({VIEW_CHANNEL}, None, next)
            && b !in Gate(BeforeGate({b}, [], [], member, 0))
            && b in Gate(BeforeGate({b}, [], Edit([], 0, None, next), member, 0))
  {
    var next := Override({VIEW_CHANNEL}, {});
    assert Edit([], 0, None, next) == [next];
    var s := ServerStage({b}, [], member, 0);
    assert s == {b};
    assert Fold(s, [next]) == Apply(s, next);
  }
}
