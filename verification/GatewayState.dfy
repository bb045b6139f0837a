/** The connection state of the event gateway: the cache, the subscribed topics and
    the queued subscription changes, edited in place by the event handlers. */
module GatewayState {
  import opened Entities
  import opened Overrides
  import opened Calculators
  import opened Gateway
  import opened GatewayEffects

  datatype Change = NoChange | Reset | Change(add: seq<Topic>, remove: seq<Topic>)

  /** The queued changes since the topics were `base` say exactly how `subscribed`
      differs from it. */
  ghost predicate Clean(base: set<Topic>, subscribed: set<Topic>, change: Change) {
    match change
    case NoChange => subscribed == base
    case Reset => true
    case Change(add, remove) => SetOf(add) == subscribed - base && SetOf(remove) == base - subscribed
  }

  function QueueAdd(change: Change, t: Topic): Change {
    match change
    case NoChange => Change([t], [])
    case Change(add, remove) => Change(add + [t], remove)
    case Reset => Reset
  }

  function QueueRemove(change: Change, t: Topic): Change {
    match change
    case NoChange => Change([], [t])
    case Change(add, remove) => Change(add, remove + [t])
    case Reset => Reset
  }

  /** Replays the channel events of a bulk event on a set of known channel IDs. */
  function Replay(ids: set<Id>, events: seq<Event>): set<Id>
    decreases events
  {
    if events == [] then ids
    else
      var rest := events[1..];
      match events[0]
      case ChannelDelete(id) => Replay(ids - {id}, rest)
      case ChannelCreate(channel) => Replay(ids + {channel.id}, rest)
      case _ => Replay(ids, rest)
  }

  lemma {:induction false} ReplayAppend(ids: set<Id>, events: seq<Event>, e: Event)
    ensures Replay(ids, events + [e]) == Replay(Replay(ids, events), [e])
    decreases events
  {
    if events == [] {
      assert events + [e] == [e];
    } else {
      assert (events + [e])[1..] == events[1..] + [e];
      match events[0]
      case ChannelDelete(id) => ReplayAppend(ids - {id}, events[1..], e);
      case ChannelCreate(channel) => ReplayAppend(ids + {channel.id}, events[1..], e);
      case _ => ReplayAppend(ids, events[1..], e);
    }
  }

  lemma ReplayMore(events: seq<Event>, e: Event)
    requires e.ChannelDelete? || e.ChannelCreate?
    ensures forall known: set<Id> :: Replay(known, events + [e]) ==
              if e.ChannelDelete? then Replay(known, events) - {e.id} else Replay(known, events) + {e.channel.id}
  {
    forall known: set<Id>
      ensures Replay(known, events + [e]) ==
              if e.ChannelDelete? then Replay(known, events) - {e.id} else Replay(known, events) + {e.channel.id}
    {
      ReplayAppend(known, events, e);
      assert [e][1..] == [];
    }
  }

  /** A client that knows the channels `known` and follows a recalculation. */
  function Followed(known: set<Id>, env: Env, cache: Cache, id: Id): set<Id>
    requires cache.userId in cache.users
  {
    if id !in cache.servers then known else known - Lost(env, cache, id) + Found(env, cache, id)
  }

  /** What a recalculation sends: the event itself when no channel comes or goes,
      else a bulk of channel events, the event last. */
  ghost predicate Announces(env: Env, cache: Cache, id: Id, event: Event, out: Event)
    requires cache.userId in cache.users
  {
    || (out == event && forall known: set<Id> {:trigger Followed(known, env, cache, id)} :: Followed(known, env, cache, id) == known)
    || (out.Bulk? && |out.v| > 0 && out.v[|out.v| - 1] == event
        && forall known: set<Id> :: Replay(known, out.v[..|out.v| - 1]) == Followed(known, env, cache, id))
  }

  /** What the client is sent for an event. */
  ghost predicate Sends(env: Env, v: View, event: Event, out: Event)
    requires v.cache.userId in v.cache.users
  {
    var w, queued := Effect(env, v, event), Queued(v.cache, event);
    if queued.Some? then Announces(env, w.cache, queued.value, event, out)
    else
      match event
      case UserUpdate(_) => out == UserUpdate(None)
      case ChannelUpdate(id, _, _) =>
        out == ChannelUpdateSends(env, v.cache, w.cache, id, event)
      case _ => out == event
  }

  /** The new state of an event, and what the client is sent for it. */
  ghost predicate Outcome(env: Env, v: View, event: Event, w: View, out: Event)
    requires v.cache.userId in v.cache.users
  {
    w == Handle(env, v, event) && Sends(env, v, event, out) && Tells(env, v, event, w, out)
  }

  lemma ChannelUpdateHandled(env: Env, v: View, event: Event)
    requires v.cache.userId in v.cache.users && event.ChannelUpdate?
    ensures var w := HandleChannelUpdate(env, v, event.id, event.channelData, event.clearDefaults);
            Outcome(env, v, event, w, ChannelUpdateSends(env, v.cache, w.cache, event.id, event))
  {
  }

  lemma ServerGoneHandled(env: Env, v: View, event: Event)
    requires v.cache.userId in v.cache.users && (event.ServerMemberLeave? || event.ServerDelete?)
    ensures var w := if event.ServerMemberLeave? && event.user != v.cache.userId then v else DropServer(v, event.id);
            Outcome(env, v, event, w, event)
  {
  }

  lemma OtherHandled(env: Env, v: View, event: Event)
    requires v.cache.userId in v.cache.users && (event.Bulk? || event.Other?)
    ensures Outcome(env, v, event, v, event)
  {
  }

  /** A channel that appears or disappears for us is announced as such. */
  function ChannelUpdateSends(env: Env, before: Cache, after: Cache, id: Id, event: Event): Event
    requires before.userId in before.users && after.userId in after.users
  {
    if id !in after.channels || Shows(env, before, id) == Shows(env, after, id) then event
    else if Shows(env, after, id) then ChannelCreate(after.channels[id])
    else ChannelDelete(id)
  }

  function ViewableOf(env: Env, cache: Cache, cs: seq<Channel>): seq<Channel>
    requires cache.userId in cache.users
  {
    if cs == [] then []
    else
      var init, last := cs[..|cs| - 1], cs[|cs| - 1];
      ViewableOf(env, cache, init) + (if CanView(env, cache, last) then [last] else [])
  }

  lemma {:induction false} ViewableMembers(env: Env, cache: Cache, cs: seq<Channel>, c: Channel)
    requires cache.userId in cache.users
    ensures c in ViewableOf(env, cache, cs) <==> c in cs && CanView(env, cache, c)
  {
    if cs != [] {
      ViewableMembers(env, cache, cs[..|cs| - 1], c);
    }
  }

  lemma {:induction false} FetchedMembers(db: Db, ids: seq<Id>, c: Channel)
    requires db.Keyed()
    ensures c in db.FetchChannels(ids) <==> c.id in ids && c.id in db.channels && db.channels[c.id] == c
  {
    if ids != [] {
      FetchedMembers(db, ids[1..], c);
    }
  }

  /** Inserting channels out of a keyed map, one key at a time. */
  lemma {:induction false} InsertAllAt(channels: map<Id, Channel>, cs: seq<Channel>, m: map<Id, Channel>, k: Id)
    requires forall c <- cs :: c.id in m && m[c.id] == c
    requires forall i <- m :: m[i].id == i
    ensures k in InsertAll(channels, cs) <==> k in channels || (k in m && m[k] in cs)
    ensures k in m && m[k] in cs ==> InsertAll(channels, cs)[k] == m[k]
    ensures k in channels && !(k in m && m[k] in cs) ==> InsertAll(channels, cs)[k] == channels[k]
    decreases cs
  {
    if cs != [] {
      assert cs == [cs[0]] + cs[1..];
      InsertAllAt(channels[cs[0].id := cs[0]], cs[1..], m, k);
    }
  }

  /** The deletions and creations of a recalculation are its announcements. */
  lemma TellsAllExactly(
    env: Env, before: Cache, id: Id, cache: Cache, removed: seq<Id>, deletes: seq<Event>, creates: seq<Event>)
    requires before.userId in before.users && id in before.servers && cache == before.(channels := cache.channels)
    requires SetOf(removed) == Lost(env, before, id)
    requires forall e :: e in deletes <==> e.ChannelDelete? && e.id in removed
    requires forall e :: e in creates <==>
               e.ChannelCreate? && e.channel.id in Found(env, before, id) && e.channel == env.db.channels[e.channel.id]
    ensures TellsAll(env, before.channels, cache, id, deletes + creates)
  {
    forall e: Event
      ensures e in deletes + creates <==> Announcement(env, before.channels, cache, id, e)
    {
      if e.ChannelDelete? {
        assert e.id in removed <==> e.id in SetOf(removed);
      }
    }
  }

  /** The channels that the second half of a recalculation inserts. */
  lemma FoundChannels(env: Env, cache: Cache, id: Id, unknown: seq<Id>, viewable: seq<Channel>)
    requires cache.userId in cache.users && id in cache.servers && env.db.Keyed() && env.bulkFetchOk
    requires SetOf(unknown) == SetOf(cache.servers[id].channels) - ServerChannels(cache.channels, id)
    requires viewable == ViewableOf(env, cache, env.db.FetchChannels(unknown))
    ensures forall c :: c in viewable <==>
              c.id in Found(env, cache, id) && env.db.channels[c.id] == c
  {
    forall c: Channel
      ensures c in viewable <==> c.id in Found(env, cache, id) && env.db.channels[c.id] == c
    {
      ViewableMembers(env, cache, env.db.FetchChannels(unknown), c);
      FetchedMembers(env.db, unknown, c);
      assert c.id in unknown <==> c.id in SetOf(unknown);
    }
  }

  lemma InsertFoundAt(env: Env, cache: Cache, id: Id, channels: map<Id, Channel>, viewable: seq<Channel>, k: Id)
    requires cache.userId in cache.users && id in cache.servers && env.db.Keyed()
    requires forall c :: c in viewable <==> c.id in Found(env, cache, id) && env.db.channels[c.id] == c
    ensures k in InsertAll(channels, viewable) <==> k in channels || k in Found(env, cache, id)
    ensures k in Found(env, cache, id) ==> InsertAll(channels, viewable)[k] == env.db.channels[k]
    ensures k in channels && k !in Found(env, cache, id) ==> InsertAll(channels, viewable)[k] == channels[k]
  {
    InsertAllAt(channels, viewable, env.db.channels, k);
    if k in Found(env, cache, id) {
      assert env.db.channels[k] in viewable;
    }
  }

  lemma InsertFound(env: Env, cache: Cache, id: Id, channels: map<Id, Channel>, viewable: seq<Channel>)
    requires cache.userId in cache.users && id in cache.servers && env.db.Keyed()
    requires forall c :: c in viewable <==> c.id in Found(env, cache, id) && env.db.channels[c.id] == c
    ensures InsertAll(channels, viewable) == channels + FoundMap(env, cache, id)
  {
    forall k
      ensures k in InsertAll(channels, viewable) <==> k in channels + FoundMap(env, cache, id)
      ensures k in InsertAll(channels, viewable) ==>
                InsertAll(channels, viewable)[k] == (channels + FoundMap(env, cache, id))[k]
    {
      InsertFoundAt(env, cache, id, channels, viewable, k);
    }
  }

  function IdsOf(cs: seq<Channel>): set<Id> {
    set c <- cs :: c.id
  }

  function TopicsFor(cs: seq<Channel>): set<Topic> {
    set c <- cs :: ChannelTopic(c.id)
  }

  lemma OneMoreChannel(cs: seq<Channel>, i: nat)
    requires i < |cs|
    ensures IdsOf(cs[..i + 1]) == IdsOf(cs[..i]) + {cs[i].id}
    ensures TopicsFor(cs[..i + 1]) == TopicsFor(cs[..i]) + {ChannelTopic(cs[i].id)}
  {
    assert cs[..i + 1] == cs[..i] + [cs[i]];
  }

  lemma FoundIds(env: Env, cache: Cache, id: Id, viewable: seq<Channel>)
    requires cache.userId in cache.users && id in cache.servers && env.db.Keyed()
    requires forall c :: c in viewable <==> c.id in Found(env, cache, id) && env.db.channels[c.id] == c
    ensures IdsOf(viewable) == Found(env, cache, id)
    ensures TopicsFor(viewable) == ChannelTopics(Found(env, cache, id))
  {
    forall k | k in Found(env, cache, id)
      ensures k in IdsOf(viewable) && ChannelTopic(k) in TopicsFor(viewable)
    {
      assert env.db.channels[k] in viewable;
    }
  }

  lemma {:induction false} ReplayConcat(ids: set<Id>, s: seq<Event>, t: seq<Event>)
    ensures Replay(ids, s + t) == Replay(Replay(ids, s), t)
    decreases t
  {
    if t == [] {
      assert s + t == s;
    } else {
      assert s + t == (s + [t[0]]) + t[1..];
      ReplayConcat(ids, s + [t[0]], t[1..]);
      ReplayAppend(ids, s, t[0]);
      assert [t[0]][1..] == [];
    }
  }

  lemma SetOfAppend<T>(s: seq<T>, x: T)
    ensures SetOf(s + [x]) == SetOf(s) + {x}
  {
    assert forall y :: y in s + [x] <==> y in s || y == x;
  }

  lemma CleanAdd(base: set<Topic>, subscribed: set<Topic>, change: Change, t: Topic)
    requires Clean(base, subscribed, change) && t !in subscribed && t !in base
    ensures Clean(base, subscribed + {t}, QueueAdd(change, t))
  {
    if change.Change? {
      SetOfAppend(change.add, t);
    }
  }

  lemma CleanRemove(base: set<Topic>, subscribed: set<Topic>, change: Change, t: Topic)
    requires Clean(base, subscribed, change) && t in subscribed && t in base
    ensures Clean(base, subscribed - {t}, QueueRemove(change, t))
  {
    if change.Change? {
      SetOfAppend(change.remove, t);
    }
  }

  /** A set in some iteration order. */
  method InSomeOrder<T(==)>(s: set<T>) returns (r: seq<T>)
    ensures SetOf(r) == s
  {
    r := [];
    var left := s;
    while left != {}
      invariant SetOf(r) == s - left && left <= s
      decreases left
    {
      var x :| x in left;
      SetOfAppend(r, x);
      r := r + [x];
      left := left - {x};
    }
  }

  class State {
    var cache: Cache
    var state: Change
    var subscribed: set<Topic>

    constructor (user: User)
      ensures cache == Cache(user.id, false, map[user.id := user], map[], map[], map[], [])
      ensures state == Reset && subscribed == {PrivateTopic(user.id), UserTopic(user.id)}
    {
      cache := Cache(user.id, false, map[user.id := user], map[], map[], map[], []);
      state := Reset;
      subscribed := {PrivateTopic(user.id), UserTopic(user.id)};
    }

    function ToView(): View
      reads this
    {
      View(cache, subscribed)
    }

    // -------------------------------------------------------------------
    // Subscriptions

    method ResetState()
      modifies this`state, this`subscribed
      ensures state == Reset && subscribed == {}
    {
      state := Reset;
      subscribed := {};
    }

    method InsertSubscription(t: Topic)
      modifies this`state, this`subscribed
      ensures subscribed == old(subscribed) + {t}
      ensures state == if t in old(subscribed) then old(state) else QueueAdd(old(state), t)
      ensures forall base :: Clean(base, old(subscribed), old(state)) && (t in old(subscribed) || t !in base)
                             ==> Clean(base, subscribed, state)
    {
      if t in subscribed {
        return;
      }
      forall base | Clean(base, subscribed, state) && t !in base
        ensures Clean(base, subscribed + {t}, QueueAdd(state, t))
      {
        CleanAdd(base, subscribed, state, t);
      }
      state := QueueAdd(state, t);
      subscribed := subscribed + {t};
    }

    /** Removing a subscription while a reset is queued is a panic in the program. */
    method RemoveSubscription(t: Topic)
      requires t in subscribed ==> state != Reset
      modifies this`state, this`subscribed
      ensures subscribed == old(subscribed) - {t}
      ensures state == if t !in old(subscribed) then old(state) else QueueRemove(old(state), t)
      ensures forall base :: Clean(base, old(subscribed), old(state)) && (t !in old(subscribed) || t in base)
                             ==> Clean(base, subscribed, state)
    {
      if t !in subscribed {
        return;
      }
      forall base | Clean(base, subscribed, state) && t in base
        ensures Clean(base, subscribed - {t}, QueueRemove(state, t))
      {
        CleanRemove(base, subscribed, state, t);
      }
      state := QueueRemove(state, t);
      subscribed := subscribed - {t};
    }

    method SubscribeUsers(users: seq<Id>)
      modifies this`state, this`subscribed
      ensures old(state) == Reset ==> state == Reset
      ensures subscribed == old(subscribed) + (set u <- users :: UserTopic(u))
    {
      for i := 0 to |users|
        invariant old(state) == Reset ==> state == Reset
        invariant subscribed == old(subscribed) + (set u <- users[..i] :: UserTopic(u))
      {
        assert users[..i + 1] == users[..i] + [users[i]];
        InsertSubscription(UserTopic(users[i]));
      }
      assert users[..|users|] == users;
    }

    function ServerTopics(servers: seq<Id>): set<Topic>
      reads this
    {
      (set s <- servers :: ServerTopic(s)) + (if cache.isBot then set s <- servers :: MembersTopic(s) else {})
    }

    method SubscribeServers(servers: seq<Id>)
      modifies this`state, this`subscribed
      ensures old(state) == Reset ==> state == Reset
      ensures subscribed == old(subscribed) + ServerTopics(servers)
    {
      for i := 0 to |servers|
        invariant old(state) == Reset ==> state == Reset
        invariant subscribed == old(subscribed) + ServerTopics(servers[..i])
      {
        assert servers[..i + 1] == servers[..i] + [servers[i]];
        InsertSubscription(ServerTopic(servers[i]));
        if cache.isBot {
          InsertSubscription(MembersTopic(servers[i]));
        }
      }
      assert servers[..|servers|] == servers;
    }

    /** The subscriptions that a fresh connection starts with: every cached channel
        is covered, and only a bot listens to member topics. */
    method SubscribeReady(users: seq<Id>, servers: seq<Id>, channels: seq<Id>)
      modifies this`state, this`subscribed
      ensures state == Reset
      ensures subscribed == {PrivateTopic(cache.userId)} + (set u <- users :: UserTopic(u))
                            + ServerTopics(servers) + ChannelTopics(SetOf(channels))
      ensures cache.channels.Keys <= SetOf(channels) ==>
                forall c <- cache.channels :: ChannelTopic(c) in subscribed
      ensures !cache.isBot ==> forall k :: MembersTopic(k) !in subscribed
    {
      ResetState();
      InsertSubscription(PrivateTopic(cache.userId));
      SubscribeUsers(users);
      SubscribeServers(servers);
      SubscribeChannels(channels, {});
      forall c | c in cache.channels && c in SetOf(channels)
        ensures ChannelTopic(c) in subscribed
      {
        assert ChannelTopic(c) in ChannelTopics(SetOf(channels));
      }
    }

    // -------------------------------------------------------------------
    // Viewability

    method CanViewChannel(env: Env, channel: Channel) returns (r: bool)
      requires cache.userId in cache.users
      ensures r == CanView(env, cache, channel)
      ensures ViewVerdict(env, cache, channel, r)
    {
      ViewVerdictHolds(env, cache, channel);
      if !channel.TextChannel? {
        return true;
      }
      var query := new DatabasePermissionQuery(
        env.db, cache.users[cache.userId], channel, Lookup(cache.servers, channel.server),
        Lookup(cache.members, channel.server), env.orders(channel.id), env.now);
      var permissions := query.CalculateChannelPermissions();
      r := VIEW_CHANNEL in permissions;
    }

    method FilterAccessibleChannels(env: Env, channels: seq<Channel>) returns (viewable: seq<Channel>)
      requires cache.userId in cache.users
      ensures viewable == ViewableOf(env, cache, channels)
    {
      viewable := [];
      for i := 0 to |channels|
        invariant viewable == ViewableOf(env, cache, channels[..i])
      {
        assert channels[..i + 1][..i] == channels[..i];
        var r := CanViewChannel(env, channels[i]);
        if r {
          viewable := viewable + [channels[i]];
        }
      }
      assert channels[..|channels|] == channels;
    }

    // -------------------------------------------------------------------
    // Recalculation

    /** Sorts the cached channels of a server into viewable and lost ones. */
    method SplitChannels(env: Env, id: Id) returns (mine: set<Id>, added: seq<Id>, removed: seq<Id>)
      requires cache.userId in cache.users
      ensures mine == ServerChannels(cache.channels, id)
      ensures SetOf(removed) == Lost(env, cache, id)
      ensures SetOf(added) == mine - Lost(env, cache, id)
    {
      mine, added, removed := {}, [], [];
      ghost var all, lost := ServerChannels(cache.channels, id), Lost(env, cache, id);
      var left := cache.channels.Keys;
      while left != {}
        invariant left <= cache.channels.Keys
        invariant mine == all - left
        invariant SetOf(removed) == mine * lost && SetOf(added) == mine - lost
        decreases left
      {
        var c :| c in left;
        left := left - {c};
        if cache.channels[c].TextChannel? && cache.channels[c].server == id {
          mine := mine + {c};
          var r := CanViewChannel(env, cache.channels[c]);
          if r {
            SetOfAppend(added, c);
            added := added + [c];
          } else {
            SetOfAppend(removed, c);
            removed := removed + [c];
          }
        }
      }
    }

    method SubscribeChannels(ids: seq<Id>, ghost base: set<Topic>)
      requires Clean(base, subscribed, state)
      requires forall c <- ids :: ChannelTopic(c) in subscribed || ChannelTopic(c) !in base
      modifies this`state, this`subscribed
      ensures subscribed == old(subscribed) + ChannelTopics(SetOf(ids))
      ensures Clean(base, subscribed, state)
      ensures old(state) == Reset <==> state == Reset
    {
      for i := 0 to |ids|
        invariant subscribed == old(subscribed) + ChannelTopics(SetOf(ids[..i]))
        invariant Clean(base, subscribed, state)
        invariant old(state) == Reset <==> state == Reset
      {
        assert ids[..i + 1] == ids[..i] + [ids[i]];
        InsertSubscription(ChannelTopic(ids[i]));
      }
      assert ids[..|ids|] == ids;
    }

    /** Drops channels from the cache and the subscriptions, and says so. */
    method DropChannels(ids: seq<Id>, ghost base: set<Topic>) returns (told: seq<Event>)
      requires state != Reset && Clean(base, subscribed, state)
      requires forall c <- ids :: ChannelTopic(c) in subscribed ==> ChannelTopic(c) in base
      modifies this
      ensures state != Reset && Clean(base, subscribed, state)
      ensures cache == old(cache).(channels := old(cache.channels) - SetOf(ids))
      ensures subscribed == old(subscribed) - ChannelTopics(SetOf(ids))
      ensures forall known: set<Id> :: Replay(known, told) == known - SetOf(ids)
      ensures forall e :: e in told <==> e.ChannelDelete? && e.id in ids
    {
      told := [];
      for i := 0 to |ids|
        invariant state != Reset && Clean(base, subscribed, state)
        invariant cache == old(cache).(channels := old(cache.channels) - SetOf(ids[..i]))
        invariant subscribed == old(subscribed) - ChannelTopics(SetOf(ids[..i]))
        invariant forall known: set<Id> :: Replay(known, told) == known - SetOf(ids[..i])
        invariant forall e :: e in told <==> e.ChannelDelete? && e.id in ids[..i]
      {
        assert ids[..i + 1] == ids[..i] + [ids[i]];
        RemoveSubscription(ChannelTopic(ids[i]));
        cache := cache.(channels := cache.channels - {ids[i]});
        SetOfAppend(ids[..i], ids[i]);
        ReplayMore(told, ChannelDelete(ids[i]));
        told := told + [ChannelDelete(ids[i])];
      }
      assert ids[..|ids|] == ids;
    }

    /** Adds fetched channels to the cache and the subscriptions, and says so. */
    method AddChannels(channels: seq<Channel>, ghost base: set<Topic>) returns (told: seq<Event>)
      requires Clean(base, subscribed, state)
      requires forall c <- channels :: ChannelTopic(c.id) in subscribed || ChannelTopic(c.id) !in base
      modifies this
      ensures Clean(base, subscribed, state)
      ensures old(state) != Reset ==> state != Reset
      ensures cache == old(cache).(channels := InsertAll(old(cache.channels), channels))
      ensures subscribed == old(subscribed) + TopicsFor(channels)
      ensures forall known: set<Id> :: Replay(known, told) == known + IdsOf(channels)
      ensures forall e :: e in told <==> e.ChannelCreate? && e.channel in channels
    {
      told := [];
      for i := 0 to |channels|
        invariant Clean(base, subscribed, state)
        invariant old(state) != Reset ==> state != Reset
        invariant cache == old(cache).(channels := cache.channels)
        invariant InsertAll(cache.channels, channels[i..]) == InsertAll(old(cache.channels), channels)
        invariant subscribed == old(subscribed) + TopicsFor(channels[..i])
        invariant forall known: set<Id> :: Replay(known, told) == known + IdsOf(channels[..i])
        invariant forall e :: e in told <==> e.ChannelCreate? && e.channel in channels[..i]
      {
        var channel := channels[i];
        OneMoreChannel(channels, i);
        assert channels[..i + 1] == channels[..i] + [channels[i]];
        assert channels[i..][1..] == channels[i + 1..];
        cache := cache.(channels := cache.channels[channel.id := channel]);
        InsertSubscription(ChannelTopic(channel.id));
        ReplayMore(told, ChannelCreate(channel));
        told := told + [ChannelCreate(channel)];
      }
      assert channels[..|channels|] == channels;
    }

    /** The second half of a recalculation: channels the server lists but the cache lacks. */
    method FetchUnknown(env: Env, id: Id, mine: set<Id>, ghost before: Cache, ghost base: set<Topic>)
      returns (told: seq<Event>)
      requires cache.userId in cache.users && id in cache.servers && env.db.Keyed()
      requires before == cache.(channels := before.channels) && mine == ServerChannels(before.channels, id)
      requires state != Reset && Clean(base, subscribed, state)
      requires forall c :: c !in mine ==> (ChannelTopic(c) in subscribed <==> ChannelTopic(c) in base)
      modifies this
      ensures state != Reset && Clean(base, subscribed, state)
      ensures cache == old(cache).(channels := old(cache.channels) + FoundMap(env, before, id))
      ensures subscribed == old(subscribed) + ChannelTopics(Found(env, before, id))
      ensures forall known: set<Id> :: Replay(known, told) == known + Found(env, before, id)
      ensures forall e :: e in told <==>
                e.ChannelCreate? && e.channel.id in Found(env, before, id) && e.channel == env.db.channels[e.channel.id]
    {
      told := [];
      var unknown := InSomeOrder(SetOf(cache.servers[id].channels) - mine);
      if unknown != [] && env.bulkFetchOk {
        var viewable := FilterAccessibleChannels(env, env.db.FetchChannels(unknown));
        SameViewable(env, cache, before, env.db.FetchChannels(unknown));
        FoundChannels(env, before, id, unknown, viewable);
        InsertFound(env, before, id, cache.channels, viewable);
        FoundIds(env, before, id, viewable);
        told := AddChannels(viewable, base);
      } else {
        assert Found(env, before, id) == {} by {
          assert env.bulkFetchOk ==> SetOf(before.servers[id].channels) - mine == SetOf(unknown) == {};
        }
        assert cache.channels == cache.channels + FoundMap(env, before, id);
      }
    }

    /** Re-determines the accessible channels of a server, and announces them. */
    method RecalculateServer(env: Env, id: Id, event: Event, ghost base: set<Topic>) returns (out: Event)
      requires cache.userId in cache.users && env.db.Keyed()
      requires state != Reset && Clean(base, subscribed, state)
      requires forall c :: ChannelTopic(c) in subscribed <==> ChannelTopic(c) in base
      modifies this
      ensures state != Reset && Clean(base, subscribed, state)
      ensures ToView() == Recalculate(env, old(ToView()), id)
      ensures Announces(env, old(cache), id, event, out)
      ensures Announced(env, old(cache.channels), cache, id, event, out)
    {
      out := event;
      if id !in cache.servers {
        return;
      }
      ghost var before, subscribedBefore := cache, subscribed;
      var mine, added, removed := SplitChannels(env, id);
      SubscribeChannels(added, base);
      ghost var kept := ChannelTopics(SetOf(added));
      forall c | c in removed
        ensures ChannelTopic(c) in subscribed ==> ChannelTopic(c) in base
      {
        assert c in SetOf(removed);
      }
      var deletes := DropChannels(removed, base);
      forall c | c !in mine
        ensures ChannelTopic(c) in subscribed <==> ChannelTopic(c) in base
      {
        assert c !in SetOf(added) && c !in SetOf(removed);
      }
      var creates := FetchUnknown(env, id, mine, before, base);
      var told := deletes + creates;
      forall known: set<Id>
        ensures Replay(known, told) == Followed(known, env, before, id)
      {
        ReplayConcat(known, deletes, creates);
      }
      if told != [] {
        out := Bulk(told + [event]);
        assert (told + [event])[..|told|] == told;
      }
      TellsAllExactly(env, before, id, cache, removed, deletes, creates);
      assert SentAs(told, event, out);
    }

    // -------------------------------------------------------------------
    // Events

    method RefreshChannel(env: Env, event: Event)
      requires event.ChannelUpdate?
      modifies this`cache
      ensures cache == Refreshed(env, old(cache), event.id, event.channelData, event.clearDefaults)
    {
      var id := event.id;
      if id in cache.channels {
        cache := cache.(channels := cache.channels[id := UpdateChannel(cache.channels[id], event.channelData, event.clearDefaults)]);
      }
      if id !in cache.channels {
        var fetched := env.db.FetchChannel(id);
        if fetched.Some? {
          cache := cache.(channels := cache.channels[id := fetched.value]);
        }
      }
    }

    method ShowsChannel(env: Env, id: Id) returns (r: bool)
      requires cache.userId in cache.users
      ensures r == Shows(env, cache, id)
    {
      r := false;
      if id in cache.channels {
        r := CanViewChannel(env, cache.channels[id]);
      }
    }

    method OnChannelUpdate(env: Env, event: Event) returns (out: Event)
      requires cache.userId in cache.users && state == NoChange && event.ChannelUpdate?
      modifies this
      ensures Clean(old(subscribed), subscribed, state) && state != Reset
      ensures Outcome(env, old(ToView()), event, ToView(), out)
    {
      ChannelUpdateHandled(env, ToView(), event);
      out := event;
      var id := event.id;
      var couldView := ShowsChannel(env, id);
      RefreshChannel(env, event);
      if id in cache.channels {
        var canView := ShowsChannel(env, id);
        if couldView != canView {
          if canView {
            out := ChannelCreate(cache.channels[id]);
            InsertSubscription(ChannelTopic(id));
          } else {
            out := ChannelDelete(id);
            RemoveSubscription(ChannelTopic(id));
          }
        }
      }
    }

    method CacheChannels(channels: seq<Channel>)
      modifies this`cache
      ensures cache == old(cache).(channels := InsertAll(old(cache.channels), channels))
    {
      for i := 0 to |channels|
        invariant cache == old(cache).(channels := cache.channels)
        invariant InsertAll(cache.channels, channels[i..]) == InsertAll(old(cache.channels), channels)
      {
        assert channels[i..][1..] == channels[i + 1..];
        cache := cache.(channels := cache.channels[channels[i].id := channels[i]]);
      }
    }

    /** Subscribes to a joined server and caches it, our membership and its channels. */
    method JoinServer(id: Id, server: Server, channels: seq<Channel>)
      requires state == NoChange
      modifies this
      ensures Clean(old(subscribed), subscribed, state) && state != Reset
      ensures ToView() == HandleServerCreate(old(ToView()), id, server, channels)
    {
      InsertSubscription(ServerTopic(id));
      if cache.isBot {
        InsertSubscription(MembersTopic(id));
      }
      cache := cache.(servers := cache.servers[id := server]);
      cache := cache.(members := cache.members[id := Member(server.id, cache.userId, [], None, true, true)]);
      CacheChannels(channels);
    }

    method OnServerCreate(env: Env, event: Event) returns (out: Event)
      requires cache.userId in cache.users && state == NoChange && event.ServerCreate? && env.db.Keyed()
      modifies this
      ensures Clean(old(subscribed), subscribed, state) && state != Reset
      ensures Outcome(env, old(ToView()), event, ToView(), out)
    {
      ghost var base := subscribed;
      BringsAll(cache.channels, event.channels);
      JoinServer(event.id, event.server, event.channels);
      ghost var brought := cache.channels;
      out := RecalculateServer(env, event.id, event, base);
      assert Brings(old(cache.channels), event.channels, brought);
    }

    /** Leaving or losing a server. */
    method LeaveServer(id: Id)
      requires state == NoChange
      modifies this
      ensures Clean(old(subscribed), subscribed, state) && state != Reset
      ensures ToView() == DropServer(old(ToView()), id)
    {
      ghost var base := subscribed;
      RemoveSubscription(ServerTopic(id));
      if id in cache.servers {
        var channels := cache.servers[id].channels;
        cache := cache.(servers := cache.servers - {id});
        var _ := DropChannels(channels, base);
      }
      cache := cache.(members := cache.members - {id});
    }

    method OnServerGone(env: Env, event: Event)
      requires cache.userId in cache.users && state == NoChange && (event.ServerMemberLeave? || event.ServerDelete?)
      modifies this
      ensures Clean(old(subscribed), subscribed, state) && state != Reset
      ensures Outcome(env, old(ToView()), event, ToView(), event)
    {
      ServerGoneHandled(env, ToView(), event);
      if event.ServerDelete? || event.user == cache.userId {
        LeaveServer(event.id);
      }
    }

    method OnServerUpdate(env: Env, event: Event) returns (out: Event)
      requires cache.userId in cache.users && state == NoChange && event.ServerUpdate? && env.db.Keyed()
      modifies this
      ensures Clean(old(subscribed), subscribed, state) && state != Reset
      ensures Outcome(env, old(ToView()), event, ToView(), out)
    {
      out := event;
      if event.id in cache.servers {
        cache := cache.(servers := cache.servers[event.id := UpdateServer(cache.servers[event.id], event.serverData)]);
      }
      if event.serverData.defaultPermissions.Some? {
        out := RecalculateServer(env, event.id, event, subscribed);
      }
    }

    method OnMemberUpdate(env: Env, event: Event) returns (out: Event)
      requires cache.userId in cache.users && state == NoChange && event.ServerMemberUpdate? && env.db.Keyed()
      modifies this
      ensures Clean(old(subscribed), subscribed, state) && state != Reset
      ensures Outcome(env, old(ToView()), event, ToView(), out)
    {
      out := event;
      if event.user == cache.userId {
        if event.id in cache.members {
          cache := cache.(members := cache.members[event.id := UpdateMember(cache.members[event.id], event.memberData, event.clear)]);
        }
        if event.memberData.roles.Some? || FieldRoles in event.clear {
          out := RecalculateServer(env, event.id, event, subscribed);
        }
      }
    }

    method OnRoleEvent(env: Env, event: Event) returns (out: Event)
      requires cache.userId in cache.users && state == NoChange && env.db.Keyed()
      requires event.ServerRoleUpdate? || event.ServerRoleDelete?
      modifies this
      ensures Clean(old(subscribed), subscribed, state) && state != Reset
      ensures Outcome(env, old(ToView()), event, ToView(), out)
    {
      out := event;
      var id, role := event.id, event.role;
      var recalculate := HoldsRole(cache, id, role);
      if id in cache.servers {
        var roles := cache.servers[id].roles;
        if event.ServerRoleDelete? {
          cache := cache.(servers := cache.servers[id := cache.servers[id].(roles := roles - {role})]);
        } else if role in roles {
          cache := cache.(servers := cache.servers[id := cache.servers[id].(roles := roles[role := UpdateRole(roles[role], event.roleData)])]);
        }
      }
      if event.ServerRoleUpdate? {
        recalculate := (event.roleData.rank.Some? || event.roleData.permissions.Some?) && recalculate;
      }
      if recalculate {
        out := RecalculateServer(env, id, event, subscribed);
      }
    }

    /** The events about a single channel or group member. */
    method OnChannelEvent(env: Env, event: Event)
      requires cache.userId in cache.users && state == NoChange
      requires event.ChannelCreate? || event.ChannelDelete? || event.ChannelGroupJoin? || event.ChannelGroupLeave?
      modifies this
      ensures Clean(old(subscribed), subscribed, state) && state != Reset
      ensures Outcome(env, old(ToView()), event, ToView(), event)
    {
      match event
      case ChannelCreate(channel) =>
        InsertSubscription(ChannelTopic(channel.id));
        cache := cache.(channels := cache.channels[channel.id := channel]);
      case ChannelDelete(id) =>
        RemoveSubscription(ChannelTopic(id));
        cache := cache.(channels := cache.channels - {id});
      case ChannelGroupJoin(_, user) =>
        InsertSubscription(UserTopic(user));
      case ChannelGroupLeave(id, user) =>
        if user == cache.userId {
          RemoveSubscription(ChannelTopic(id));
        } else if !CanSubscribeToUser(cache, user) {
          RemoveSubscription(UserTopic(user));
        }
    }

    method OnUserRelationship(env: Env, event: Event)
      requires cache.userId in cache.users && state == NoChange && event.UserRelationship?
      modifies this
      ensures Clean(old(subscribed), subscribed, state) && state != Reset
      ensures Outcome(env, old(ToView()), event, ToView(), event)
    {
      cache := cache.(users := cache.users[event.id := event.profile]);
      if CanSubscribeToUser(cache, event.id) {
        InsertSubscription(UserTopic(event.id));
      } else {
        RemoveSubscription(UserTopic(event.id));
      }
    }

    /** User updates are fanned out over several topics; a repeated one is dropped. */
    method OnUserUpdate(env: Env, event: Event) returns (send: bool, out: Event)
      requires cache.userId in cache.users && event.UserUpdate?
      modifies this`cache
      ensures Outcome(env, old(ToView()), event, ToView(), out)
      ensures !send <==> event.eventId.Some? && event.eventId.value in old(cache.seen)
    {
      send, out := true, UserUpdate(None);
      if event.eventId.Some? {
        if event.eventId.value in cache.seen {
          send := false;
        } else {
          cache := cache.(seen := Remember(cache.seen, event.eventId.value));
        }
      }
    }

    /** One incoming event. The batch it queues is clean: no topic is both added and
        removed, and no subscription is removed during a reset. */
    method HandleIncomingEvent(env: Env, event: Event) returns (send: bool, out: Event)
      requires cache.userId in cache.users && state == NoChange && env.db.Keyed()
      modifies this
      ensures Clean(old(subscribed), subscribed, state) && state != Reset
      ensures ToView() == Handle(env, old(ToView()), event)
      ensures Leaves(env, old(ToView()), event, ToView())
      ensures Tells(env, old(ToView()), event, ToView(), out)
      ensures Sends(env, old(ToView()), event, out)
      ensures !send <==> event.UserUpdate? && event.eventId.Some? && event.eventId.value in old(cache.seen)
    {
      send, out := true, event;
      ghost var v := ToView();
      match event {
      case ChannelUpdate(_, _, _) =>
        out := OnChannelUpdate(env, event);
      case ServerCreate(_, _, _) =>
        out := OnServerCreate(env, event);
      case ServerUpdate(_, _) =>
        out := OnServerUpdate(env, event);
      case ServerMemberLeave(_, _) =>
        OnServerGone(env, event);
      case ServerDelete(_) =>
        OnServerGone(env, event);
      case ServerMemberUpdate(_, _, _, _) =>
        out := OnMemberUpdate(env, event);
      case ServerRoleUpdate(_, _, _) =>
        out := OnRoleEvent(env, event);
      case ServerRoleDelete(_, _) =>
        out := OnRoleEvent(env, event);
      case UserUpdate(_) =>
        send, out := OnUserUpdate(env, event);
      case UserRelationship(_, _) =>
        OnUserRelationship(env, event);
      case Bulk(_) =>
        OtherHandled(env, v, event);
      case Other =>
        OtherHandled(env, v, event);
      case _ =>
        OnChannelEvent(env, event);
      }
      HandleLeaves(env, v, event);
    }
  }

  /** Viewability does not read the cached channels. */
  lemma {:induction false} SameViewable(env: Env, cache: Cache, cache': Cache, cs: seq<Channel>)
    requires cache.userId in cache.users && cache' == cache.(channels := cache'.channels)
    ensures ViewableOf(env, cache, cs) == ViewableOf(env, cache', cs)
  {
    if cs != [] {
      SameViewable(env, cache, cache', cs[..|cs| - 1]);
    }
  }
}
