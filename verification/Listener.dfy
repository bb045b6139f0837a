/** The listener loop of a gateway connection: each turn flushes the queued
    subscription changes to the publish/subscribe client, then handles one event. */
module Listener {
  import opened Entities
  import opened Gateway
  import opened GatewayInvariant
  import opened GatewayState

  // ---------------------------------------------------------------------
  // Batches of arbitrary subscription edits

  datatype Edit = Insert(topic: Topic) | Delete(topic: Topic)

  function ApplyEdit(subscribed: set<Topic>, change: Change, e: Edit): (set<Topic>, Change) {
    match e
    case Insert(t) => (subscribed + {t}, if t in subscribed then change else QueueAdd(change, t))
    case Delete(t) => (subscribed - {t}, if t in subscribed then QueueRemove(change, t) else change)
  }

  function ApplyEdits(subscribed: set<Topic>, change: Change, edits: seq<Edit>): (set<Topic>, Change)
    decreases edits
  {
    if edits == [] then (subscribed, change)
    else
      var (s, c) := ApplyEdit(subscribed, change, edits[0]);
      ApplyEdits(s, c, edits[1..])
  }

  /** What the flush makes of the subscribed set, and of the client's topics. */
  function FlushSubscribed(subscribed: set<Topic>, change: Change): set<Topic> {
    if change.Change? then subscribed + SetOf(change.add) - SetOf(change.remove) else subscribed
  }

  function FlushTopics(topics: set<Topic>, subscribed: set<Topic>, change: Change): set<Topic> {
    match change
    case NoChange => topics
    case Reset => subscribed
    case Change(add, remove) => topics - SetOf(remove) + SetOf(add)
  }

  /** Topics that the batch does not mention are as they were. */
  ghost predicate Tracked(base: set<Topic>, subscribed: set<Topic>, change: Change) {
    match change
    case NoChange => subscribed == base
    case Reset => false
    case Change(add, remove) => forall t :: t !in add && t !in remove ==> (t in subscribed <==> t in base)
  }

  lemma {:induction false} EditsTracked(base: set<Topic>, subscribed: set<Topic>, change: Change, edits: seq<Edit>)
    requires Tracked(base, subscribed, change)
    ensures var (s, c) := ApplyEdits(subscribed, change, edits); Tracked(base, s, c)
    decreases edits
  {
    if edits != [] {
      var (s, c) := ApplyEdit(subscribed, change, edits[0]);
      EditsTracked(base, s, c, edits[1..]);
    }
  }

  /** For every batch of edits on topics that were in step, the flush leaves the
      client's topics and the subscribed set equal exactly when no topic was both
      added and removed. */
  lemma FlushAgreesExactly(base: set<Topic>, edits: seq<Edit>)
    ensures var (s, c) := ApplyEdits(base, NoChange, edits);
            (FlushTopics(base, s, c) == FlushSubscribed(s, c) <==>
             (c.Change? ==> SetOf(c.add) !! SetOf(c.remove)))
  {
    var (s, c) := ApplyEdits(base, NoChange, edits);
    EditsTracked(base, base, NoChange, edits);
    if c.Change? {
      if t :| t in SetOf(c.add) && t in SetOf(c.remove) {
        assert t in FlushTopics(base, s, c) && t !in FlushSubscribed(s, c);
      } else {
        forall t
          ensures t in FlushTopics(base, s, c) <==> t in FlushSubscribed(s, c)
        {
          assert t in SetOf(c.add) <==> t in c.add;
          assert t in SetOf(c.remove) <==> t in c.remove;
        }
      }
    }
  }

  /** Two edits of one topic in one batch do break the agreement. */
  lemma FlushCanDisagree(t: Topic)
    ensures var (s, c) := ApplyEdits({}, NoChange, [Insert(t), Delete(t)]);
            FlushTopics({}, s, c) == {t} && FlushSubscribed(s, c) == {}
  {
    var edits := [Insert(t), Delete(t)];
    assert edits[1..] == [Delete(t)] && [Delete(t)][1..] == [];
    var none: set<Topic> := {};
    assert none + {t} == {t} && {t} - {t} == none && [] + [t] == [t];
    assert ApplyEdit(none, NoChange, Insert(t)) == ({t}, Change([t], []));
    assert ApplyEdit({t}, Change([t], []), Delete(t)) == (none, Change([t], [t]));
    assert ApplyEdits({t}, Change([t], []), [Delete(t)]) == (none, Change([t], [t]));
    assert SetOf([t]) == {t};
  }

  // ---------------------------------------------------------------------
  // Expiring active servers

  /** What the timed cache of active servers reports in one flush. */
  datatype TimedEntry = Valid(key: Id) | Expired(key: Id)

  ghost predicate DistinctKeys(entries: seq<TimedEntry>) {
    forall i, j :: 0 <= i < j < |entries| ==> entries[i].key != entries[j].key
  }

  function ActiveTopics(entries: seq<TimedEntry>): set<Topic> {
    set e <- entries | e.Valid? :: MembersTopic(e.key)
  }

  function ExpiredTopics(entries: seq<TimedEntry>): set<Topic> {
    set e <- entries | e.Expired? :: MembersTopic(e.key)
  }

  lemma OneMoreEntry(entries: seq<TimedEntry>, i: nat)
    requires i < |entries| && DistinctKeys(entries)
    ensures ActiveTopics(entries[..i + 1]) ==
            ActiveTopics(entries[..i]) + (if entries[i].Valid? then {MembersTopic(entries[i].key)} else {})
    ensures ExpiredTopics(entries[..i + 1]) ==
            ExpiredTopics(entries[..i]) + (if entries[i].Expired? then {MembersTopic(entries[i].key)} else {})
    ensures MembersTopic(entries[i].key) !in ActiveTopics(entries[..i]) + ExpiredTopics(entries[..i])
  {
    assert entries[..i + 1] == entries[..i] + [entries[i]];
    forall e | e in entries[..i]
      ensures e.key != entries[i].key
    {
      var k :| 0 <= k < i && entries[k] == e;
    }
  }

  lemma EffectLeavesMemberTopics(env: Env, v: View, e: Event, k: Id)
    requires v.cache.userId in v.cache.users && !v.cache.isBot
    ensures MembersTopic(k) in Effect(env, v, e).subscribed <==> MembersTopic(k) in v.subscribed
  {
    match e
    case ServerMemberLeave(id, user) =>
    case ServerDelete(id) =>
    case _ =>
  }

  /** Events never touch a user's member topics; only the active servers do. */
  lemma MemberTopicsUntouched(env: Env, v: View, e: Event, k: Id)
    requires v.cache.userId in v.cache.users && !v.cache.isBot
    ensures MembersTopic(k) in Handle(env, v, e).subscribed <==> MembersTopic(k) in v.subscribed
  {
    EffectLeavesMemberTopics(env, v, e, k);
  }

  /** A turn wakes up for an event or only for a change of the active servers. */
  datatype Turn = Turn(entries: seq<TimedEntry>, event: Option<(Env, Event)>)

  function AfterFlush(v: View, entries: seq<TimedEntry>): View {
    if v.cache.isBot then v else v.(subscribed := v.subscribed + ActiveTopics(entries) - ExpiredTopics(entries))
  }

  /** The topics after a flush, entry by entry. */
  ghost predicate Follows(before: set<Topic>, isBot: bool, entries: seq<TimedEntry>, after: set<Topic>) {
    && (!isBot ==> forall e <- entries :: MembersTopic(e.key) in after <==> e.Valid?)
    && (forall t :: isBot || (forall e <- entries :: t != MembersTopic(e.key)) ==> (t in after <==> t in before))
  }

  lemma FlushFollows(v: View, entries: seq<TimedEntry>)
    requires DistinctKeys(entries)
    ensures Follows(v.subscribed, v.cache.isBot, entries, AfterFlush(v, entries).subscribed)
  {
    var after := AfterFlush(v, entries).subscribed;
    if !v.cache.isBot {
      forall e | e in entries
        ensures MembersTopic(e.key) in after <==> e.Valid?
      {
        var i :| 0 <= i < |entries| && entries[i] == e;
        forall d | d in entries && d.key == e.key
          ensures d == e
        {
          var j :| 0 <= j < |entries| && entries[j] == d;
        }
      }
    }
  }

  /** A flush keeps the agreement: it does not look at member topics. */
  lemma FlushKeeps(orders: Iteration, v: View, entries: seq<TimedEntry>)
    requires Inv(orders, v)
    ensures Inv(orders, AfterFlush(v, entries))
  {
    var w := AfterFlush(v, entries);
    assert forall c :: ChannelTopic(c) in v.subscribed ==> ChannelTopic(c) in w.subscribed;
  }

  /** Every event of the turns is well formed and picks up what it makes visible, in the
      state in which it arrives. */
  ghost predicate GoodTurns(orders: Iteration, v: View, turns: seq<Turn>)
    requires v.cache.userId in v.cache.users
    decreases turns
  {
    turns != [] ==>
      var w := AfterFlush(v, turns[0].entries);
      if turns[0].event.None? then GoodTurns(orders, w, turns[1..])
      else
        var (env, e) := turns[0].event.value;
        GoodInput(orders, w.cache, env, e) && GoodTurns(env.orders, Handle(env, w, e), turns[1..])
  }

  /** What the client listens to and what the connection knows, at a flush point, and the
      iteration orders last met. */
  datatype Moment = Moment(topics: set<Topic>, view: View, orders: Iteration)

  /** The connection after a turn: the flush, then the event if there is one. */
  function AfterTurn(v: View, turn: Turn): (w: View)
    requires v.cache.userId in v.cache.users
    ensures w.cache.userId in w.cache.users
  {
    var flushed := AfterFlush(v, turn.entries);
    if turn.event.None? then flushed else Handle(turn.event.value.0, flushed, turn.event.value.1)
  }

  /** The orders last met after a turn. */
  function OrdersAfter(orders: Iteration, turn: Turn): Iteration {
    if turn.event.None? then orders else turn.event.value.0.orders
  }

  /** What a turn shows at its flush point: the client listens to the subscribed topics. */
  ghost predicate Shown(v: View, orders: Iteration, turn: Turn, m: Moment) {
    && m.view == AfterFlush(v, turn.entries) && m.topics == m.view.subscribed && m.orders == orders
  }

  /** The connection passes through `views` and `orders` with the turns, and `history` is
      what it shows at the flush points. */
  ghost predicate Chain(views: seq<View>, orders: seq<Iteration>, turns: seq<Turn>, history: seq<Moment>) {
    && |views| == |orders| == |turns| + 1 && |history| == |turns|
    && (forall i :: 0 <= i < |views| ==> views[i].cache.userId in views[i].cache.users)
    && (forall i :: 0 <= i < |turns| ==>
          && Shown(views[i], orders[i], turns[i], history[i])
          && views[i + 1] == AfterTurn(views[i], turns[i])
          && orders[i + 1] == OrdersAfter(orders[i], turns[i]))
  }

  lemma ChainMore(
    views: seq<View>, orders: seq<Iteration>, turns: seq<Turn>, history: seq<Moment>, turn: Turn, m: Moment)
    requires Chain(views, orders, turns, history) && Shown(views[|turns|], orders[|turns|], turn, m)
    ensures Chain(views + [AfterTurn(views[|turns|], turn)], orders + [OrdersAfter(orders[|turns|], turn)],
                  turns + [turn], history + [m])
  {
  }

  /** The client listens to every channel we can view. */
  ghost predicate Covers(m: Moment) {
    m.view.cache.userId in m.view.cache.users
    && forall c :: Owed(m.orders, m.view.cache, c) ==> ChannelTopic(c) in m.topics
  }

  class Connection {
    const state: State
    /** The topics that the publish/subscribe client listens to. */
    var redis: set<Topic>

    constructor (state: State)
      ensures this.state == state && redis == {}
    {
      this.state := state;
      redis := {};
    }

    /** Between turns: either a reset is queued, or the queued changes say exactly
        how the subscribed set differs from the client's topics. */
    ghost predicate Valid()
      reads this, state
    {
      && state.cache.userId in state.cache.users
      && (state.state == Reset && !state.cache.isBot ==> forall k :: MembersTopic(k) !in state.subscribed)
      && (state.state != Reset ==>
            && Clean(redis, state.subscribed, state.state)
            && (!state.cache.isBot ==>
                  forall k :: MembersTopic(k) in state.subscribed <==> MembersTopic(k) in redis))
    }

    /** Queues the changes of the active servers. */
    method QueueActiveServers(entries: seq<TimedEntry>)
      requires Valid() && !state.cache.isBot && DistinctKeys(entries)
      modifies state`state, state`subscribed
      ensures state.subscribed == old(state.subscribed) + ActiveTopics(entries) - ExpiredTopics(entries)
      ensures state.state == Reset <==> old(state.state) == Reset
      ensures state.state != Reset ==> Clean(redis, state.subscribed, state.state)
    {
      for i := 0 to |entries|
        invariant state.subscribed ==
                  old(state.subscribed) + ActiveTopics(entries[..i]) - ExpiredTopics(entries[..i])
        invariant state.state == Reset <==> old(state.state) == Reset
        invariant state.state != Reset ==> Clean(redis, state.subscribed, state.state)
      {
        var topic := MembersTopic(entries[i].key);
        OneMoreEntry(entries, i);
        assert topic in state.subscribed <==> topic in old(state.subscribed);
        match entries[i]
        case Valid(k) => state.InsertSubscription(topic);
        case Expired(k) => state.RemoveSubscription(topic);
      }
      assert entries[..|entries|] == entries;
    }

    /** Takes the queued changes and applies them to the subscribed set. */
    method ApplyState(entries: seq<TimedEntry>) returns (change: Change)
      requires Valid() && DistinctKeys(entries)
      modifies state`state, state`subscribed
      ensures state.state == NoChange
      ensures state.subscribed == if state.cache.isBot then old(state.subscribed)
                                  else old(state.subscribed) + ActiveTopics(entries) - ExpiredTopics(entries)
      ensures change == Reset <==> old(state.state) == Reset
      ensures change != Reset ==> Clean(redis, state.subscribed, change)
    {
      if !state.cache.isBot {
        QueueActiveServers(entries);
      }
      change := state.state;
      state.state := NoChange;
      if change.Change? {
        ghost var before := state.subscribed;
        for i := 0 to |change.add|
          invariant state.state == NoChange && state.subscribed == before
        {
          assert change.add[i] in SetOf(change.add);
          state.subscribed := state.subscribed + {change.add[i]};
        }
        for i := 0 to |change.remove|
          invariant state.state == NoChange && state.subscribed == before
        {
          assert change.remove[i] in SetOf(change.remove);
          state.subscribed := state.subscribed - {change.remove[i]};
        }
      }
    }

    /** The flush at the top of a turn leaves the client listening to exactly the
        subscribed topics: those of before, and unless the user is a bot the member topics of
        the active servers and not those of the expired ones. */
    method Flush(entries: seq<TimedEntry>)
      requires Valid() && DistinctKeys(entries)
      modifies this, state`state, state`subscribed
      ensures Valid() && state.state == NoChange
      ensures redis == state.subscribed && state.ToView() == AfterFlush(old(state.ToView()), entries)
      ensures Follows(old(state.subscribed), state.cache.isBot, entries, redis)
    {
      FlushFollows(state.ToView(), entries);
      var change := ApplyState(entries);
      match change
      case Reset =>
        redis := {};
        var topics := InSomeOrder(state.subscribed);
        Subscribe(topics);
      case Change(add, remove) =>
        Unsubscribe(remove);
        Subscribe(add);
      case NoChange =>
    }

    method Subscribe(topics: seq<Topic>)
      modifies this
      ensures redis == old(redis) + SetOf(topics)
    {
      for i := 0 to |topics|
        invariant redis == old(redis) + SetOf(topics[..i])
      {
        assert topics[..i + 1] == topics[..i] + [topics[i]];
        redis := redis + {topics[i]};
      }
      assert topics[..|topics|] == topics;
    }

    method Unsubscribe(topics: seq<Topic>)
      modifies this
      ensures redis == old(redis) - SetOf(topics)
    {
      for i := 0 to |topics|
        invariant redis == old(redis) - SetOf(topics[..i])
      {
        assert topics[..i + 1] == topics[..i] + [topics[i]];
        redis := redis - {topics[i]};
      }
      assert topics[..|topics|] == topics;
    }

    /** The event half of a turn. */
    method Receive(env: Env, event: Event, ghost orders: Iteration) returns (send: bool, out: Event)
      requires Valid() && state.state == NoChange && env.db.Keyed()
      modifies state
      ensures Valid() && state.state != Reset
      ensures state.ToView() == Handle(env, old(state.ToView()), event)
      ensures Sends(env, old(state.ToView()), event, out)
      ensures Inv(orders, old(state.ToView())) && GoodInput(orders, old(state.cache), env, event) ==>
                Inv(env.orders, state.ToView())
    {
      ghost var before := state.ToView();
      send, out := state.HandleIncomingEvent(env, event);
      if Inv(orders, before) && GoodInput(orders, before.cache, env, event) {
        GoodInputKeeps(orders, before, env, event);
      }
      if !state.cache.isBot {
        forall k
          ensures MembersTopic(k) in state.subscribed <==> MembersTopic(k) in redis
        {
          MemberTopicsUntouched(env, before, event, k);
        }
      }
    }

    /** One turn: at its flush point the client listens to exactly the subscribed topics,
        and it still does so at the end of the turn. */
    method TakeTurn(turn: Turn, orders: Iteration) returns (moment: Moment, orders': Iteration)
      requires Valid() && DistinctKeys(turn.entries) && (turn.event.Some? ==> turn.event.value.0.db.Keyed())
      modifies this, state
      ensures Valid()
      ensures Shown(old(state.ToView()), orders, turn, moment) && redis == moment.topics
      ensures state.ToView() == AfterTurn(old(state.ToView()), turn)
      ensures orders' == OrdersAfter(orders, turn)
    {
      Flush(turn.entries);
      moment, orders' := Moment(redis, state.ToView(), orders), orders;
      if turn.event.Some? {
        var _, _ := Receive(turn.event.value.0, turn.event.value.1, orders);
        orders' := turn.event.value.0.orders;
      }
    }

    /** One turn after another: the connection goes through the states that the flushes and
        events give, and at every flush point the client listens to exactly the subscribed
        topics. */
    method Run(turns: seq<Turn>, orders: Iteration)
      returns (history: seq<Moment>, ghost views: seq<View>, ghost met: seq<Iteration>)
      requires Valid()
      requires forall t <- turns :: DistinctKeys(t.entries) && (t.event.Some? ==> t.event.value.0.db.Keyed())
      modifies this, state
      ensures Valid() && Chain(views, met, turns, history)
      ensures views[0] == old(state.ToView()) && state.ToView() == views[|turns|] && met[0] == orders
      ensures redis == if turns == [] then old(redis) else history[|turns| - 1].topics
      ensures Inv(orders, old(state.ToView())) && GoodTurns(orders, old(state.ToView()), turns) ==>
                forall i :: 0 <= i < |history| ==> Covers(history[i])
    {
      history, views, met := [], [state.ToView()], [orders];
      var current := orders;
      for i := 0 to |turns|
        invariant Valid() && Chain(views, met, turns[..i], history)
        invariant views[0] == old(state.ToView()) && state.ToView() == views[i] && met[0] == orders && current == met[i]
        invariant redis == if i == 0 then old(redis) else history[i - 1].topics
      {
        assert turns[i] in turns && turns[..i] + [turns[i]] == turns[..i + 1];
        var moment;
        moment, current := TakeTurn(turns[i], current);
        ChainMore(views, met, turns[..i], history, turns[i], moment);
        history, views, met := history + [moment], views + [state.ToView()], met + [current];
      }
      assert turns[..|turns|] == turns;
      HistoryCovers(views, met, turns, history);
    }
  }

  /** As long as the events pick up what they make visible, at every flush point the client
      listens to every cached channel that the permission calculus shows. */
  lemma {:induction false} ChainCovers(
    views: seq<View>, orders: seq<Iteration>, turns: seq<Turn>, history: seq<Moment>, from: nat)
    requires Chain(views, orders, turns, history) && from <= |turns|
    requires Inv(orders[from], views[from]) && GoodTurns(orders[from], views[from], turns[from..])
    ensures forall i :: from <= i < |turns| ==> Covers(history[i])
    ensures Inv(orders[|turns|], views[|turns|])
    decreases |turns| - from
  {
    if from < |turns| {
      TurnKeeps(orders[from], views[from], turns[from..]);
      assert turns[from..][0] == turns[from] && turns[from..][1..] == turns[from + 1..];
      assert Shown(views[from], orders[from], turns[from], history[from]);
      ChainCovers(views, orders, turns, history, from + 1);
    }
  }

  lemma HistoryCovers(views: seq<View>, orders: seq<Iteration>, turns: seq<Turn>, history: seq<Moment>)
    requires Chain(views, orders, turns, history)
    ensures Inv(orders[0], views[0]) && GoodTurns(orders[0], views[0], turns) ==>
              forall i :: 0 <= i < |history| ==> Covers(history[i])
  {
    if Inv(orders[0], views[0]) && GoodTurns(orders[0], views[0], turns) {
      assert turns[0..] == turns;
      ChainCovers(views, orders, turns, history, 0);
    }
  }

  lemma TurnKeeps(orders: Iteration, v: View, turns: seq<Turn>)
    requires turns != [] && Inv(orders, v) && GoodTurns(orders, v, turns)
    ensures Inv(orders, AfterFlush(v, turns[0].entries))
    ensures Inv(OrdersAfter(orders, turns[0]), AfterTurn(v, turns[0]))
    ensures GoodTurns(OrdersAfter(orders, turns[0]), AfterTurn(v, turns[0]), turns[1..])
  {
    var w := AfterFlush(v, turns[0].entries);
    FlushKeeps(orders, v, turns[0].entries);
    if turns[0].event.Some? {
      GoodInputKeeps(orders, w, turns[0].event.value.0, turns[0].event.value.1);
    }
  }
}
