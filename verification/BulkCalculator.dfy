/** The bulk permission calculator, which answers for many users of one server
    channel at once, and its agreement with the single-user calculator. */
module BulkCalculator {
  import opened Entities
  import opened Overrides
  import opened RoleOrder
  import opened Decisions
  import opened Calculators

  /** `HashMap::from_iter` over the members keyed by user: the last entry wins. */
  function MemberOf(members: seq<Member>, user: Id): Option<Member> {
    if members == [] then None
    else if members[|members| - 1].user == user then Some(members[|members| - 1])
    else MemberOf(members[..|members| - 1], user)
  }

  function BulkServerValue(server: Server, member: Member, order: seq<Id>, now: int): Bits {
    Restricted(Fold(server.defaultPermissions, ServerOverrides(server, member, order)), member, now)
  }

  /** What the bulk calculator reports for one user. */
  function BulkPermissions(
    server: Server, channel: Channel, user: User, member: Option<Member>, orders: Orders, now: int): Bits
    requires channel.TextChannel?
  {
    match member
    case None => {}
    case Some(m) =>
      if user.privileged || user.id == server.owner then GRANT_ALL_SAFE
      else
        Fold(BulkServerValue(server, m, orders.roles, now),
             [DefaultOverride(channel)] + ChannelOverrides(channel, server, m, orders.overrides))
  }

  /** The last listed record of the user, if there is one. */
  lemma {:induction false} MemberOfIsLast(members: seq<Member>, user: Id)
    ensures MemberOf(members, user).None? <==> forall m <- members :: m.user != user
    ensures MemberOf(members, user).Some? ==>
              exists i :: 0 <= i < |members| && members[i] == MemberOf(members, user).value && members[i].user == user
                          && forall j :: i < j < |members| ==> members[j].user != user
  {
    if members != [] && members[|members| - 1].user != user {
      MemberOfIsLast(members[..|members| - 1], user);
    }
  }

  /** A member's bulk value, bit by bit: what the channel says over the server, where a
      timeout restricts the server value alone and voice moderation and the view gate play
      no part; everything for the privileged and the owner. */
  ghost predicate BulkVerdict(server: Server, channel: Channel, user: User, m: Member, orders: Orders, now: int, r: Bits)
    requires channel.TextChannel?
  {
    if user.privileged || user.id == server.owner then AllSafe(r)
    else forall b: Bit :: Clear(channel, server, m, orders, b) ==>
           (b in r <==> ChannelSays(channel, server, m, b, ServerSays(server, m, b) && InTime(m, now, b)))
  }

  lemma BulkServerSays(server: Server, m: Member, order: seq<Id>, now: int, b: Bit)
    requires Lists(order, server.roles) && RolesAgree(server, m, b)
    ensures b in BulkServerValue(server, m, order, now) <==> ServerSays(server, m, b) && InTime(m, now, b)
  {
    ServerFoldSays(server, m, order, b);
  }

  lemma BulkVerdictHolds(server: Server, channel: Channel, user: User, m: Member, orders: Orders, now: int)
    requires channel.TextChannel?
    ensures BulkVerdict(server, channel, user, m, orders, now, BulkPermissions(server, channel, user, Some(m), orders, now))
  {
    var p := BulkServerValue(server, m, orders.roles, now);
    var cos := ChannelOverrides(channel, server, m, orders.overrides);
    assert ([DefaultOverride(channel)] + cos)[1..] == cos;
    assert Apply(p, NO_OVERRIDE) == p;
    forall b: Bit | Clear(channel, server, m, orders, b)
      ensures b in Fold(p, [DefaultOverride(channel)] + cos) <==>
              ChannelSays(channel, server, m, b, ServerSays(server, m, b) && InTime(m, now, b))
    {
      BulkServerSays(server, m, orders.roles, now, b);
      ChannelFoldSays(channel, server, m, orders.overrides, p, b);
    }
  }

  /** A member's server value, without voice moderation. */
  method CalculateServerPermissions(server: Server, user: User, member: Member, order: seq<Id>, now: int)
    returns (r: Bits)
    ensures r == if user.privileged || server.owner == user.id then GRANT_ALL_SAFE
                 else BulkServerValue(server, member, order, now)
    ensures if user.privileged || server.owner == user.id then AllSafe(r)
            else forall b: Bit :: Lists(order, server.roles) && RolesAgree(server, member, b) ==>
                   (b in r <==> ServerSays(server, member, b) && InTime(member, now, b))
  {
    forall b: Bit | Lists(order, server.roles) && RolesAgree(server, member, b)
      ensures b in BulkServerValue(server, member, order, now) <==> ServerSays(server, member, b) && InTime(member, now, b)
    {
      BulkServerSays(server, member, order, now, b);
    }
    if user.privileged || server.owner == user.id {
      return GRANT_ALL_SAFE;
    }
    var permissions := new PermissionValue(server.defaultPermissions);
    permissions.ApplyAll(ServerOverrides(server, member, order));
    if member.InTimeout(now) {
      permissions.Restrict(ALLOW_IN_TIMEOUT);
    }
    r := permissions.raw;
  }

  /** The loop over the users; a user listed twice keeps the later entry. */
  method CalculateMembersPermissions(
    server: Server, channel: Channel, users: seq<User>, members: seq<Member>, orders: Orders, now: int)
    returns (resp: map<Id, Bits>)
    requires channel.TextChannel?
    ensures resp.Keys == set u <- users :: u.id
    ensures forall i :: 0 <= i < |users| && (forall j :: i < j < |users| ==> users[j].id != users[i].id) ==>
              resp[users[i].id] ==
              BulkPermissions(server, channel, users[i], MemberOf(members, users[i].id), orders, now)
  {
    resp := map[];
    for n := 0 to |users|
      invariant resp.Keys == set u <- users[..n] :: u.id
      invariant forall i :: 0 <= i < n && (forall j :: i < j < n ==> users[j].id != users[i].id) ==>
                  resp[users[i].id] ==
                  BulkPermissions(server, channel, users[i], MemberOf(members, users[i].id), orders, now)
    {
      var user := users[n];
      var value := MemberPermissions(server, channel, user, MemberOf(members, user.id), orders, now);
      assert users[..n + 1] == users[..n] + [user];
      resp := resp[user.id := value];
    }
    assert users[..|users|] == users;
  }

  /** One turn of the loop. */
  method MemberPermissions(
    server: Server, channel: Channel, user: User, member: Option<Member>, orders: Orders, now: int)
    returns (r: Bits)
    requires channel.TextChannel?
    ensures r == BulkPermissions(server, channel, user, member, orders, now)
    ensures if member.None? then r == {} else BulkVerdict(server, channel, user, member.value, orders, now, r)
  {
    if member.None? {
      return {};
    }
    BulkVerdictHolds(server, channel, user, member.value, orders, now);
    if user.privileged {
      return GRANT_ALL_SAFE;
    }
    if user.id == server.owner {
      return GRANT_ALL_SAFE;
    }
    var serverValue := CalculateServerPermissions(server, user, member.value, orders.roles, now);
    var permission := new PermissionValue(serverValue);
    if channel.defaults.Some? {
      permission.ApplyOverride(channel.defaults.value);
    }
    var overrides := ChannelOverrides(channel, server, member.value, orders.overrides);
    assert ([DefaultOverride(channel)] + overrides)[1..] == overrides;
    assert Apply(serverValue, NO_OVERRIDE) == serverValue;
    permission.ApplyAll(overrides);
    r := permission.raw;
  }

  // ---------------------------------------------------------------------
  // Agreement with the single-user calculator

  /** No bit is disputed between two held roles of the same deciding rank, neither
      at the server nor at the channel. */
  ghost predicate UndisputedFor(channel: Channel, server: Server, member: Member, orders: Orders)
    requires channel.TextChannel?
  {
    && Undisputed(HeldServerRoles(server, member, orders.roles))
    && Undisputed(HeldChannelRoles(channel, server, member, orders.overrides))
  }

  ghost predicate OrdersFor(channel: Channel, server: Server, orders: Orders)
    requires channel.TextChannel?
  {
    Lists(orders.roles, server.roles) && Lists(orders.overrides, channel.rolePermissions)
  }

  /** The two calculators may iterate the hash maps in different orders. */
  lemma SameFolds(p: Bits, q: Bits, channel: Channel, server: Server, member: Member, o: Orders, o': Orders)
    requires channel.TextChannel? && OrdersFor(channel, server, o) && OrdersFor(channel, server, o')
    requires UndisputedFor(channel, server, member, o)
    ensures Fold(p, ServerOverrides(server, member, o.roles)) == Fold(p, ServerOverrides(server, member, o'.roles))
    ensures Fold(q, [DefaultOverride(channel)] + ChannelOverrides(channel, server, member, o.overrides))
         == Fold(q, [DefaultOverride(channel)] + ChannelOverrides(channel, server, member, o'.overrides))
  {
    IterationOrderInvisible(p, o.roles, o'.roles, server.roles, ServerEntries(server.roles), member.roles);
    var entries := ChannelEntries(channel.rolePermissions, server.roles);
    var d := DefaultOverride(channel);
    IterationOrderInvisible(Apply(q, d), o.overrides, o'.overrides, channel.rolePermissions, entries, member.roles);
    assert ([d] + ChannelOverrides(channel, server, member, o.overrides))[1..]
        == ChannelOverrides(channel, server, member, o.overrides);
    assert ([d] + ChannelOverrides(channel, server, member, o'.overrides))[1..]
        == ChannelOverrides(channel, server, member, o'.overrides);
  }

  /** For every member of the server both calculators give the same answer on
      ViewChannel, whatever the timeout, the voice flags and the iteration orders. */
  lemma AgreeOnView(
    db: Db, server: Server, channel: Channel, user: User, member: Member, o: Orders, o': Orders, now: int)
    requires channel.TextChannel? && channel.server == server.id
    requires OrdersFor(channel, server, o) && OrdersFor(channel, server, o')
    requires UndisputedFor(channel, server, member, o)
    ensures VIEW_CHANNEL in ChannelPermissions(db, user, channel, Some(server), Some(member), o, now)
       <==> VIEW_CHANNEL in BulkPermissions(server, channel, user, Some(member), o', now)
  {
    if !user.privileged && server.owner != user.id {
      var base := server.defaultPermissions;
      var os := ServerOverrides(server, member, o.roles);
      var cos := [DefaultOverride(channel)] + ChannelOverrides(channel, server, member, o.overrides);
      ViewSkipsRestrictions(base, os, cos, member, now);
      var bulkServer := BulkServerValue(server, member, o'.roles, now);
      SameFolds(base, bulkServer, channel, server, member, o, o');
      LastMentionDecides(bulkServer, cos, VIEW_CHANNEL);
      LastMentionDecides(Fold(base, os), cos, VIEW_CHANNEL);
    }
  }

  /** The bits on which the calculators can differ before the gate: voice bits that
      moderation took away and the channel does not mention, and, in a timeout,
      bits outside the timeout allowance that the channel grants. */
  function Difference(base: Bits, os: seq<Override>, cos: seq<Override>, member: Member, now: int): Bits {
    var c := Collapse(cos);
    if member.InTimeout(now) then c.allow - c.deny - ALLOW_IN_TIMEOUT
    else (Fold(base, os) * VoiceRevoked(member)) - c.allow - c.deny
  }

  lemma DifferenceIsExact(base: Bits, os: seq<Override>, cos: seq<Override>, member: Member, now: int)
    ensures BeforeGate(base, os, cos, member, now)
         == Fold(Restricted(Fold(base, os), member, now), cos) - Difference(base, os, cos, member, now)
    ensures Difference(base, os, cos, member, now) <= Fold(Restricted(Fold(base, os), member, now), cos)
  {
    FoldCollapses(ServerStage(base, os, member, now), cos);
    FoldCollapses(Restricted(Fold(base, os), member, now), cos);
    assert VoiceRevoked(member) !! ALLOW_IN_TIMEOUT;
  }

  /** Every bit that is granted is denied by the channel in the end. */
  predicate AllDenied(base: Bits, os: seq<Override>, cos: seq<Override>, member: Member, now: int) {
    Restricted(Fold(base, os), member, now) + Collapse(cos).allow <= Collapse(cos).deny
  }

  lemma GatedAgree(before: Bits, bulk: Bits, difference: Bits, p: Bits, c: Override, view: bool)
    requires before == bulk - difference && difference <= bulk && bulk == Apply(p, c)
    requires VIEW_CHANNEL in before <==> view
    ensures Gate(before) == bulk <==> if view then difference == {} else p + c.allow <= c.deny
  {
    if view {
      assert before == bulk <==> difference == {};
    } else if bulk == {} {
      forall b | b in p + c.allow
        ensures b in c.deny
      {
        assert b !in bulk;
      }
    }
  }

  /** For an ordinary member the two calculators report the same value exactly when, on a
      channel that the folds show, no differing bit exists, and on a hidden one, everything
      granted is denied. */
  lemma AgreeOnValueExactly(
    db: Db, server: Server, channel: Channel, user: User, member: Member, o: Orders, o': Orders, now: int)
    requires channel.TextChannel? && channel.server == server.id
    requires OrdersFor(channel, server, o) && OrdersFor(channel, server, o')
    requires UndisputedFor(channel, server, member, o)
    requires !user.privileged && server.owner != user.id
    ensures var base, os := server.defaultPermissions, ServerOverrides(server, member, o.roles);
            var cos := [DefaultOverride(channel)] + ChannelOverrides(channel, server, member, o.overrides);
            (ChannelPermissions(db, user, channel, Some(server), Some(member), o, now) ==
             BulkPermissions(server, channel, user, Some(member), o', now))
            <==> if VIEW_CHANNEL in Fold(Fold(base, os), cos) then Difference(base, os, cos, member, now) == {}
                 else AllDenied(base, os, cos, member, now)
  {
    var base := server.defaultPermissions;
    var os := ServerOverrides(server, member, o.roles);
    var cos := [DefaultOverride(channel)] + ChannelOverrides(channel, server, member, o.overrides);
    var bulk := BulkPermissions(server, channel, user, Some(member), o', now);
    SameFolds(base, BulkServerValue(server, member, o'.roles, now), channel, server, member, o, o');
    assert bulk == Fold(Restricted(Fold(base, os), member, now), cos);
    DifferenceIsExact(base, os, cos, member, now);
    ViewSkipsRestrictions(base, os, cos, member, now);
    FoldCollapses(Restricted(Fold(base, os), member, now), cos);
    GatedAgree(BeforeGate(base, os, cos, member, now), bulk, Difference(base, os, cos, member, now),
               Restricted(Fold(base, os), member, now), Collapse(cos), VIEW_CHANNEL in Fold(Fold(base, os), cos));
  }

  /** The case the callers rely on: visible, not timed out, not muted, not deafened. */
  lemma AgreeWhenUnmoderated(
    db: Db, server: Server, channel: Channel, user: User, member: Member, o: Orders, o': Orders, now: int)
    requires channel.TextChannel? && channel.server == server.id
    requires OrdersFor(channel, server, o) && OrdersFor(channel, server, o')
    requires DistinctRanks(HeldServerRoles(server, member, o.roles))
    requires DistinctRanks(HeldChannelRoles(channel, server, member, o.overrides))
    requires !member.InTimeout(now) && member.canPublish && member.canReceive
    requires VIEW_CHANNEL in BulkPermissions(server, channel, user, Some(member), o', now)
    ensures ChannelPermissions(db, user, channel, Some(server), Some(member), o, now)
         == BulkPermissions(server, channel, user, Some(member), o', now)
  {
    assert UndisputedFor(channel, server, member, o);
    if !user.privileged && server.owner != user.id {
      AgreeOnValueExactly(db, server, channel, user, member, o, o', now);
      AgreeOnView(db, server, channel, user, member, o, o', now);
      ViewSkipsRestrictions(server.defaultPermissions, ServerOverrides(server, member, o.roles),
                            [DefaultOverride(channel)] + ChannelOverrides(channel, server, member, o.overrides), member, now);
    }
  }

  // ---------------------------------------------------------------------
  // The query, with the records it fetches itself

  function FetchUsers(people: map<Id, User>, ids: seq<Id>): seq<User> {
    if ids == [] then []
    else (if ids[0] in people then [people[ids[0]]] else []) + FetchUsers(people, ids[1..])
  }

  function FetchMembers(db: Db, server: Id, ids: seq<Id>): seq<Member> {
    if ids == [] then []
    else
      var found := db.FetchMember(server, ids[0]);
      (if found.Some? then [found.value] else []) + FetchMembers(db, server, ids[1..])
  }

  function UserIds(users: seq<User>): seq<Id> {
    seq(|users|, i requires 0 <= i < |users| => users[i].id)
  }

  function MemberIds(members: seq<Member>): seq<Id> {
    seq(|members|, i requires 0 <= i < |members| => members[i].user)
  }

  ghost predicate PeopleKeyed(people: map<Id, User>) {
    forall k <- people :: people[k].id == k
  }

  ghost predicate MembersKeyed(db: Db) {
    forall k <- db.members :: db.members[k].server == k.0 && db.members[k].user == k.1
  }

  /** Fetched members are those of the users asked for, as the database has them. */
  lemma {:induction false} FetchedMember(db: Db, server: Id, ids: seq<Id>, user: Id)
    requires MembersKeyed(db)
    ensures MemberOf(FetchMembers(db, server, ids), user) == if user in ids then db.FetchMember(server, user) else None
  {
    if ids != [] {
      FetchedMember(db, server, ids[1..], user);
      MemberOfAppend(if db.FetchMember(server, ids[0]).Some? then [db.FetchMember(server, ids[0]).value] else [],
                     FetchMembers(db, server, ids[1..]), user);
      assert user in ids <==> user == ids[0] || user in ids[1..];
    }
  }

  /** The users fetched for some IDs are those of the people that have one of the IDs. */
  lemma {:induction false} FetchedUsers(people: map<Id, User>, ids: seq<Id>, u: User)
    requires PeopleKeyed(people)
    ensures u in FetchUsers(people, ids) <==> u.id in ids && u.id in people && people[u.id] == u
  {
    if ids != [] {
      FetchedUsers(people, ids[1..], u);
      assert u.id in ids <==> u.id == ids[0] || u.id in ids[1..];
    }
  }

  lemma {:induction false} MemberOfAppend(a: seq<Member>, b: seq<Member>, user: Id)
    ensures MemberOf(a + b, user) == if MemberOf(b, user).Some? then MemberOf(b, user) else MemberOf(a, user)
  {
    if b == [] {
      assert a + b == a;
    } else {
      assert (a + b)[..|a + b| - 1] == a + b[..|b| - 1];
      MemberOfAppend(a, b[..|b| - 1], user);
    }
  }

  /** The users are exactly those of the people whom some member record names. */
  ghost predicate PeopleOf(people: map<Id, User>, users: seq<User>, members: seq<Member>) {
    forall u :: u in users <==> u.id in people && people[u.id] == u && exists m <- members :: m.user == u.id
  }

  lemma AskedUsers(people: map<Id, User>, users: seq<User>, members: seq<Member>)
    ensures PeopleKeyed(people) && PeopleOf(people, users, members) ==>
              (set u <- users :: u.id) == (set m <- members | m.user in people :: m.user)
  {
    if PeopleKeyed(people) && PeopleOf(people, users, members) {
      forall m | m in members && m.user in people
        ensures m.user in set u <- users :: u.id
      {
        assert people[m.user] in users;
      }
    }
  }

  lemma CompletedUsers(people: map<Id, User>, members: seq<Member>)
    ensures PeopleKeyed(people) ==> PeopleOf(people, FetchUsers(people, MemberIds(members)), members)
  {
    if PeopleKeyed(people) {
      forall u: User
        ensures u in FetchUsers(people, MemberIds(members)) <==>
                u.id in people && people[u.id] == u && exists m <- members :: m.user == u.id
      {
        FetchedUsers(people, MemberIds(members), u);
        if m :| m in members && m.user == u.id {
          var i :| 0 <= i < |members| && members[i] == m;
          assert MemberIds(members)[i] == u.id;
        }
      }
    }
  }

  lemma CompletedMembers(db: Db, server: Id, users: seq<User>)
    ensures MembersKeyed(db) ==>
              forall u <- users :: MemberOf(FetchMembers(db, server, UserIds(users)), u.id) == db.FetchMember(server, u.id)
  {
    if MembersKeyed(db) {
      forall u | u in users
        ensures MemberOf(FetchMembers(db, server, UserIds(users)), u.id) == db.FetchMember(server, u.id)
      {
        FetchedMember(db, server, UserIds(users), u.id);
        var i :| 0 <= i < |users| && users[i] == u;
        assert UserIds(users)[i] == u.id;
      }
    }
  }

  class BulkDatabasePermissionQuery {
    const db: Db
    const people: map<Id, User>
    const server: Server
    const channel: Channel
    var users: Option<seq<User>>
    var members: Option<seq<Member>>

    constructor (db: Db, people: map<Id, User>, server: Server, channel: Channel,
                 users: Option<seq<User>>, members: Option<seq<Member>>)
      ensures this.db == db && this.people == people && this.server == server && this.channel == channel
      ensures this.users == users && this.members == members
    {
      this.db, this.people, this.server, this.channel := db, people, server, channel;
      this.users, this.members := users, members;
    }

    /** Fetches whichever list was not given, for the IDs of the other. */
    method Complete()
      requires users.Some? || members.Some?
      modifies this`users, this`members
      ensures users.Some? && members.Some?
      ensures users == if old(users).Some? then old(users) else Some(FetchUsers(people, MemberIds(members.value)))
      ensures members == if old(members).Some? then old(members)
                         else Some(FetchMembers(db, server.id, UserIds(users.value)))
      ensures old(users).None? && PeopleKeyed(people) ==> PeopleOf(people, users.value, members.value)
      ensures old(members).None? && MembersKeyed(db) ==>
                forall u <- users.value :: MemberOf(members.value, u.id) == db.FetchMember(server.id, u.id)
    {
      if users.None? {
        users := Some(FetchUsers(people, MemberIds(members.value)));
      }
      if members.None? {
        members := Some(FetchMembers(db, server.id, UserIds(users.value)));
      }
      CompletedUsers(people, members.value);
      CompletedMembers(db, server.id, users.value);
    }

    /** Nobody later in the list has the same ID. */
    predicate Last(i: nat)
      requires users.Some? && i < |users.value|
      reads this
    {
      forall j :: i < j < |users.value| ==> users.value[j].id != users.value[i].id
    }

    /** Whether each user can see the channel: for a member whose roles dispute no bit, what
        the single-user calculator says, whatever iteration orders that one meets; for
        anybody else, no. */
    method MembersCanSeeChannel(orders: Orders, now: int) returns (r: map<Id, bool>)
      requires channel.TextChannel? && channel.server == server.id && OrdersFor(channel, server, orders)
      requires users.Some? || members.Some?
      modifies this`users, this`members
      ensures users.Some? && members.Some? && r.Keys == set u <- users.value :: u.id
      ensures old(users).None? && PeopleKeyed(people) ==>
                r.Keys == set m <- members.value | m.user in people :: m.user
      ensures forall i :: 0 <= i < |users.value| && Last(i) && MemberOf(members.value, users.value[i].id).None? ==>
                !r[users.value[i].id]
      ensures forall i, o :: 0 <= i < |users.value| && Last(i) && Judged(users.value[i], o) ==>
                r[users.value[i].id] == SingleSees(users.value[i], o, now)
    {
      Complete();
      var values := CalculateMembersPermissions(server, channel, users.value, members.value, orders, now);
      r := map id <- values :: VIEW_CHANNEL in values[id];
      AskedUsers(people, users.value, members.value);
      forall i, o | 0 <= i < |users.value| && Last(i) && Judged(users.value[i], o)
        ensures r[users.value[i].id] == SingleSees(users.value[i], o, now)
      {
        var u := users.value[i];
        AgreeOnView(db, server, channel, u, MemberOf(members.value, u.id).value, o, orders, now);
      }
    }

    /** A member whose roles dispute no bit, under some iteration orders. */
    ghost predicate Judged(u: User, o: Orders)
      requires channel.TextChannel? && members.Some?
      reads this
    {
      && MemberOf(members.value, u.id).Some? && OrdersFor(channel, server, o)
      && UndisputedFor(channel, server, MemberOf(members.value, u.id).value, o)
    }

    predicate SingleSees(u: User, o: Orders, now: int)
      requires channel.TextChannel? && members.Some? && MemberOf(members.value, u.id).Some?
      reads this
    {
      VIEW_CHANNEL in ChannelPermissions(db, u, channel, Some(server), MemberOf(members.value, u.id), o, now)
    }
  }
}
