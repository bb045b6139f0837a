/** What the client has been told about channels, compared with what the connection
    is subscribed to. */
module GatewayClient {
  import opened Entities
  import opened Overrides
  import opened RoleOrder
  import opened Calculators
  import opened Gateway
  import opened GatewayInvariant
  import opened GatewayState

  function SubscribedChannels(subscribed: set<Topic>): set<Id> {
    set t <- subscribed | t.ChannelTopic? :: t.channel
  }

  /** The channels that come along with a server. */
  function Brought(e: Event): set<Id> {
    if e.ServerCreate? then set c <- e.channels :: c.id else {}
  }

  /** The channels a client knows after it follows what an event makes the gateway
      send. Recalculation events come before the event that caused them. */
  function Learns(known: set<Id>, env: Env, v: View, e: Event): set<Id>
    requires v.cache.userId in v.cache.users
  {
    var w := Effect(env, v, e);
    match e
    case ChannelCreate(channel) => known + {channel.id}
    case ChannelUpdate(id, _, _) =>
      var out := ChannelUpdateSends(env, v.cache, w.cache, id, e);
      if out.ChannelCreate? then known + {id} else if out.ChannelDelete? then known - {id} else known
    case ChannelDelete(id) => known - {id}
    case ChannelGroupLeave(id, user) => if user == v.cache.userId then known - {id} else known
    case ServerMemberLeave(id, user) =>
      if user == v.cache.userId && id in v.cache.servers then known - SetOf(v.cache.servers[id].channels) else known
    case ServerDelete(id) =>
      if id in v.cache.servers then known - SetOf(v.cache.servers[id].channels) else known
    case _ =>
      var queued := Queued(v.cache, e);
      (if queued.Some? then Followed(known, env, w.cache, queued.value) else known) + Brought(e)
  }

  /** What the client learns from a recalculation is what replaying the sent channel
      events gives. */
  lemma LearnsWhatIsSent(known: set<Id>, env: Env, v: View, e: Event, out: Event)
    requires v.cache.userId in v.cache.users && Queued(v.cache, e).Some? && Sends(env, v, e, out)
    ensures out.Bulk? ==> |out.v| > 0
    ensures Learns(known, env, v, e) ==
            (if out.Bulk? then Replay(known, out.v[..|out.v| - 1]) else known) + Brought(e)
  {
    assert Followed(known, env, Effect(env, v, e).cache, Queued(v.cache, e).value) ==
           if out.Bulk? then Replay(known, out.v[..|out.v| - 1]) else known;
  }

  /** The viewable cached channels of the server that an event recalculates. */
  function Kept(env: Env, v: View, e: Event): set<Id>
    requires v.cache.userId in v.cache.users
  {
    var queued := Queued(v.cache, e);
    var cache := Effect(env, v, e).cache;
    if queued.None? || queued.value !in cache.servers then {}
    else ServerChannels(cache.channels, queued.value) - Lost(env, cache, queued.value)
  }

  /** The cached channels that a recalculation drops. */
  function Dropped(env: Env, v: View, e: Event): set<Id>
    requires v.cache.userId in v.cache.users
  {
    var queued := Queued(v.cache, e);
    var cache := Effect(env, v, e).cache;
    if queued.None? || queued.value !in cache.servers then {} else Lost(env, cache, queued.value)
  }

  lemma TopicsOf(subscribed: set<Topic>, c: Id)
    ensures c in SubscribedChannels(subscribed) <==> ChannelTopic(c) in subscribed
  {
  }

  lemma LearnsPlain(known: set<Id>, env: Env, v: View, e: Event)
    requires v.cache.userId in v.cache.users && known == SubscribedChannels(v.subscribed)
    requires Queued(v.cache, e).None?
    ensures Learns(known, env, v, e) == SubscribedChannels(Handle(env, v, e).subscribed)
  {
    var w := Handle(env, v, e);
    forall c
      ensures c in Learns(known, env, v, e) <==> c in SubscribedChannels(w.subscribed)
    {
      TopicsOf(v.subscribed, c);
      TopicsOf(w.subscribed, c);
      PlainTopic(known, env, v, e, c);
    }
  }

  lemma PlainTopic(known: set<Id>, env: Env, v: View, e: Event, c: Id)
    requires v.cache.userId in v.cache.users && Queued(v.cache, e).None?
    requires c in known <==> ChannelTopic(c) in v.subscribed
    ensures c in Learns(known, env, v, e) <==> ChannelTopic(c) in Effect(env, v, e).subscribed
  {
    if e.ChannelUpdate? {
      UpdateTopic(known, env, v, e, c);
    } else if e.ServerMemberLeave? || e.ServerDelete? {
      GoneTopic(known, env, v, e, c);
    } else {
      OtherTopic(known, env, v, e, c);
    }
  }

  lemma UpdateTopic(known: set<Id>, env: Env, v: View, e: Event, c: Id)
    requires v.cache.userId in v.cache.users && e.ChannelUpdate?
    requires c in known <==> ChannelTopic(c) in v.subscribed
    ensures c in Learns(known, env, v, e) <==> ChannelTopic(c) in Effect(env, v, e).subscribed
  {
  }

  lemma GoneTopic(known: set<Id>, env: Env, v: View, e: Event, c: Id)
    requires v.cache.userId in v.cache.users && (e.ServerMemberLeave? || e.ServerDelete?)
    requires c in known <==> ChannelTopic(c) in v.subscribed
    ensures c in Learns(known, env, v, e) <==> ChannelTopic(c) in Effect(env, v, e).subscribed
  {
  }

  lemma OtherTopic(known: set<Id>, env: Env, v: View, e: Event, c: Id)
    requires v.cache.userId in v.cache.users && Queued(v.cache, e).None?
    requires !e.ChannelUpdate? && !e.ServerMemberLeave? && !e.ServerDelete?
    requires c in known <==> ChannelTopic(c) in v.subscribed
    ensures c in Learns(known, env, v, e) <==> ChannelTopic(c) in Effect(env, v, e).subscribed
  {
  }

  lemma LearnsRecalculated(known: set<Id>, env: Env, v: View, e: Event, c: Id)
    requires v.cache.userId in v.cache.users && Queued(v.cache, e).Some?
    requires c in known <==> ChannelTopic(c) in v.subscribed
    ensures ChannelTopic(c) in Handle(env, v, e).subscribed <==>
              || c in Kept(env, v, e)
              || (c in Followed(known, env, Effect(env, v, e).cache, Queued(v.cache, e).value))
  {
    assert ChannelTopic(c) in Effect(env, v, e).subscribed <==> ChannelTopic(c) in v.subscribed;
  }

  /** What an event brings along is cached, and so kept or dropped by the recalculation. */
  lemma BroughtIsSorted(env: Env, v: View, e: Event, c: Id)
    requires v.cache.userId in v.cache.users && c in Brought(e)
    requires e.ServerCreate? ==> e.server.id == e.id && forall c <- e.channels :: c.TextChannel? && c.server == e.id
    ensures c in Kept(env, v, e) + Dropped(env, v, e)
  {
    BroughtIsCached(v.cache.channels, e.channels, c);
    InsertAllMembers(v.cache.channels, e.channels, c);
  }

  lemma InStepRecalculated(known: set<Id>, env: Env, v: View, e: Event, after: set<Id>)
    requires v.cache.userId in v.cache.users && known == SubscribedChannels(v.subscribed) && Queued(v.cache, e).Some?
    requires after == Followed(known, env, Effect(env, v, e).cache, Queued(v.cache, e).value)
    ensures SubscribedChannels(Handle(env, v, e).subscribed) == Kept(env, v, e) + after
    ensures Learns(known, env, v, e) == after + Brought(e)
    ensures Kept(env, v, e) !! Dropped(env, v, e)
  {
    var w := Handle(env, v, e);
    forall c
      ensures c in SubscribedChannels(w.subscribed) <==> c in Kept(env, v, e) || c in after
    {
      TopicsOf(v.subscribed, c);
      TopicsOf(w.subscribed, c);
      LearnsRecalculated(known, env, v, e, c);
    }
  }

  /** Known and not dropped, or just found. */
  lemma FollowedMembers(known: set<Id>, env: Env, v: View, e: Event, c: Id)
    requires v.cache.userId in v.cache.users && Queued(v.cache, e).Some?
    ensures c in Kept(env, v, e) ==>
              (c in Followed(known, env, Effect(env, v, e).cache, Queued(v.cache, e).value) <==> c in known)
    ensures c in Dropped(env, v, e) ==>
              c !in Followed(known, env, Effect(env, v, e).cache, Queued(v.cache, e).value)
  {
  }

  /** A client in step stays in step exactly when every kept channel is one it knows
      or is just being told of, and no dropped channel comes along with the event. */
  lemma InStepExactly(known: set<Id>, env: Env, v: View, e: Event)
    requires v.cache.userId in v.cache.users && known == SubscribedChannels(v.subscribed)
    requires e.ServerCreate? ==> e.server.id == e.id && forall c <- e.channels :: c.TextChannel? && c.server == e.id
    ensures Learns(known, env, v, e) == SubscribedChannels(Handle(env, v, e).subscribed) <==>
            (Kept(env, v, e) <= known + Brought(e) && Brought(e) !! Dropped(env, v, e))
  {
    if Queued(v.cache, e).None? {
      LearnsPlain(known, env, v, e);
      assert Kept(env, v, e) == {} && Dropped(env, v, e) == {};
    } else {
      var after := Followed(known, env, Effect(env, v, e).cache, Queued(v.cache, e).value);
      InStepRecalculated(known, env, v, e, after);
      forall c | c in Brought(e)
        ensures c in Kept(env, v, e) + Dropped(env, v, e)
      {
        BroughtIsSorted(env, v, e, c);
      }
      forall c
        ensures c in Kept(env, v, e) ==> (c in after <==> c in known)
        ensures c in Dropped(env, v, e) ==> c !in after
      {
        FollowedMembers(known, env, v, e, c);
      }
      SetFacts(known, after, Kept(env, v, e), Dropped(env, v, e), Brought(e));
    }
  }

  lemma SetFacts(known: set<Id>, after: set<Id>, kept: set<Id>, dropped: set<Id>, brought: set<Id>)
    requires kept !! dropped && brought <= kept + dropped
    requires forall c <- kept :: c in after <==> c in known
    requires forall c <- dropped :: c !in after
    ensures after + brought == kept + after <==> kept <= known + brought && brought !! dropped
  {
    if after + brought == kept + after {
      assert forall c <- kept :: c in after + brought;
      assert forall c <- brought :: c in kept + after;
    }
  }

  /** A created server comes with its own channels. */
  ghost predicate Proper(e: Event) {
    e.ServerCreate? ==> e.server.id == e.id && forall c <- e.channels :: c.TextChannel? && c.server == e.id
  }

  /** The condition of one event. */
  ghost predicate Tells(env: Env, v: View, e: Event)
    requires v.cache.userId in v.cache.users
  {
    Kept(env, v, e) <= SubscribedChannels(v.subscribed) + Brought(e) && Brought(e) !! Dropped(env, v, e)
  }

  /** The client knows exactly the subscribed channels after every event of a run. */
  ghost predicate InStepThroughout(known: set<Id>, v: View, inputs: seq<(Env, Event)>)
    requires v.cache.userId in v.cache.users
    decreases inputs
  {
    && known == SubscribedChannels(v.subscribed)
    && (inputs != [] ==>
          var (env, e) := inputs[0];
          InStepThroughout(Learns(known, env, v, e), Handle(env, v, e), inputs[1..]))
  }

  ghost predicate TellsThroughout(v: View, inputs: seq<(Env, Event)>)
    requires v.cache.userId in v.cache.users
    decreases inputs
  {
    inputs != [] ==>
      var (env, e) := inputs[0];
      Tells(env, v, e) && TellsThroughout(Handle(env, v, e), inputs[1..])
  }

  /** Over every run, a client in step at the start is in step after every event exactly
      when each event, in the state in which it arrives, meets the condition. */
  lemma {:induction false} InStepRunExactly(known: set<Id>, v: View, inputs: seq<(Env, Event)>)
    requires v.cache.userId in v.cache.users && known == SubscribedChannels(v.subscribed)
    requires forall i :: 0 <= i < |inputs| ==> Proper(inputs[i].1)
    ensures InStepThroughout(known, v, inputs) <==> TellsThroughout(v, inputs)
    decreases inputs
  {
    if inputs != [] {
      var (env, e) := inputs[0];
      var w, learned := Handle(env, v, e), Learns(known, env, v, e);
      assert Proper(inputs[0].1);
      InStepExactly(known, env, v, e);
      if learned == SubscribedChannels(w.subscribed) {
        InStepRunExactly(learned, w, inputs[1..]);
      }
    }
  }

  lemma {:induction false} BroughtIsCached(channels: map<Id, Channel>, cs: seq<Channel>, c: Id)
    requires forall ch <- cs :: ch.TextChannel?
    ensures c in channels ==> c in InsertAll(channels, cs)
    ensures c in (set ch <- cs :: ch.id) ==> c in InsertAll(channels, cs) && InsertAll(channels, cs)[c] in cs
    decreases cs
  {
    if cs != [] {
      BroughtIsCached(channels[cs[0].id := cs[0]], cs[1..], c);
      InsertAllMembers(channels[cs[0].id := cs[0]], cs[1..], c);
    }
  }

  // ---------------------------------------------------------------------
  // A channel the client is never told of

  const ALLOW_VIEW := Override({VIEW_CHANNEL}, {})

  /** One viewable channel, with an override for a role that we do not hold yet. */
  function OneChannel(userId: Id, owner: Id): View {
    View(Cache(userId, false, map[userId := User(userId, false, map[])],
               map["c" := TextChannel("c", "s", None, map["r" := ALLOW_VIEW])],
               map["s" := Member("s", userId, [], None, true, true)],
               map["s" := Server("s", owner, ["c"], map["r" := Role(0, NO_OVERRIDE)], {VIEW_CHANNEL})], []),
         {ChannelTopic("c")})
  }

  const ROLE_ENV := Env(Db(map[], map[], map[]), _ => Orders([], ["r"]), 0, true)

  const HIDE := ChannelUpdate("c", PartialChannel(Some(DENY_VIEW), None), false)

  function GiveRole(userId: Id): Event {
    ServerMemberUpdate("s", userId, PartialMember(Some(["r"]), None, None, None), [])
  }

  /** The channel of the example shows exactly when it is not hidden or the role is held. */
  lemma ShowsUnlessHidden(cache: Cache, hidden: bool, given: bool)
    requires cache.userId in cache.users && !cache.users[cache.userId].privileged && Cached(cache, "s")
    requires "c" in cache.channels && cache.servers["s"].owner != cache.users[cache.userId].id
    requires cache.channels["c"] ==
             TextChannel("c", "s", if hidden then Some(DENY_VIEW) else None, map["r" := ALLOW_VIEW])
    requires cache.servers["s"].roles == map["r" := Role(0, NO_OVERRIDE)]
    requires cache.servers["s"].defaultPermissions == {VIEW_CHANNEL}
    requires cache.members["s"].roles == if given then ["r"] else []
    ensures Shows(ROLE_ENV, cache, "c") <==> !hidden || given
  {
    var channel, server, member := cache.channels["c"], cache.servers["s"], cache.members["s"];
    CanViewIsVisible(ROLE_ENV, cache, channel);
    assert ServerOverrides(server, member, []) == [];
    var entries := ChannelEntries(channel.rolePermissions, server.roles);
    var d := DefaultOverride(channel);
    if given {
      OneHeld("r", entries);
      assert ([d] + [ALLOW_VIEW])[1..] == [ALLOW_VIEW];
      assert Fold(Apply({VIEW_CHANNEL}, d), [ALLOW_VIEW]) == Apply(Apply({VIEW_CHANNEL}, d), ALLOW_VIEW);
    } else {
      assert Held(["r"][1..], entries, []) == [] && Held(["r"], entries, []) == [];
      assert [d] + [] == [d];
      assert Fold({VIEW_CHANNEL}, [d]) == Apply({VIEW_CHANNEL}, d);
    }
  }

  /** The same with the channel hidden and not subscribed. */
  function HiddenChannel(userId: Id, owner: Id): View {
    var v := OneChannel(userId, owner);
    View(v.cache.(channels := map["c" := TextChannel("c", "s", Some(DENY_VIEW), map["r" := ALLOW_VIEW])]), {})
  }

  lemma HidingTells(userId: Id, owner: Id)
    requires owner != userId
    ensures Handle(ROLE_ENV, OneChannel(userId, owner), HIDE) == HiddenChannel(userId, owner)
    ensures Learns({"c"}, ROLE_ENV, OneChannel(userId, owner), HIDE) == {}
  {
    var v, w := OneChannel(userId, owner), HiddenChannel(userId, owner);
    ShowsUnlessHidden(v.cache, false, false);
    ShowsUnlessHidden(w.cache, true, false);
    assert Refreshed(ROLE_ENV, v.cache, "c", HIDE.channelData, false) == w.cache;
  }

  lemma RoleShows(userId: Id, owner: Id)
    requires owner != userId
    ensures ChannelTopic("c") in Handle(ROLE_ENV, HiddenChannel(userId, owner), GiveRole(userId)).subscribed
    ensures Learns({}, ROLE_ENV, HiddenChannel(userId, owner), GiveRole(userId)) == {}
  {
    var v, e := HiddenChannel(userId, owner), GiveRole(userId);
    var w := Effect(ROLE_ENV, v, e);
    ShowsUnlessHidden(w.cache, true, true);
    assert "c" in ServerChannels(w.cache.channels, "s") && "c" !in Lost(ROLE_ENV, w.cache, "s");
    assert Found(ROLE_ENV, w.cache, "s") == {};
  }

  /** Hiding a channel removes it from the client but leaves it in the cache; when a role
      shows it again, the connection subscribes to it and the client hears nothing. */
  lemma ShownAgainUntold(userId: Id, owner: Id)
    requires owner != userId
    ensures var v := Handle(ROLE_ENV, OneChannel(userId, owner), HIDE);
            var known := Learns({"c"}, ROLE_ENV, OneChannel(userId, owner), HIDE);
            && "c" !in known && ChannelTopic("c") !in v.subscribed
            && ChannelTopic("c") in Handle(ROLE_ENV, v, GiveRole(userId)).subscribed
            && "c" !in Learns(known, ROLE_ENV, v, GiveRole(userId))
  {
    HidingTells(userId, owner);
    RoleShows(userId, owner);
  }
}
