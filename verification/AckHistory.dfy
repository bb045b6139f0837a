/** What the requests of a run asked for, and what became of it: every position asked for
    is committed, no other position ever is, and events are consumed in order. */
module AckHistory {
  import opened Entities
  import opened Acks

  // ---------------------------------------------------------------------
  // Single operations

  /** A request that has read: it stops exactly when a position at or past its message is
      pending, and then leaves everything as it was. */
  lemma AskedExactly(s: State, p: nat, key: Key, message: Position)
    requires p in s.tasks && s.tasks[p] == Asked(key, message)
    ensures Enabled(s, GetStale(p)) <==> key in s.pending && s.pending[key] >= message
    ensures Enabled(s, GetPass(p)) <==> !(key in s.pending && s.pending[key] >= message)
    ensures var s' := Step(s, GetStale(p));
            s'.pending == s.pending && s'.queue == s.queue && s'.read == s.read
  {
  }

  /** A request's write leaves exactly its message pending, and its event is queued last. */
  lemma SetWrites(s: State, p: nat, key: Key, message: Position)
    requires p in s.tasks && s.tasks[p] == ToSet(key, message)
    ensures var s' := Run(s, [Set(p), Publish(p)]);
            s'.pending == s.pending[key := message] && s'.queue == s.queue + [key] && s'.read == s.read && p !in s'.tasks
  {
    RunTwo(s, Set(p), Publish(p));
    SetStep(s, p, key, message);
  }

  /** A server acknowledgement writes its next item whatever was pending, under the user's
      own key, and announces it exactly when nothing or the same was pending. */
  lemma ServerWrites(s: State, p: nat, user: Id, channel: Id, last: Position, rest: seq<Item>)
    requires p in s.tasks && s.tasks[p] == Serving(user, [Item(channel, last)] + rest)
    ensures var key := Key(user, channel);
            var announced := key !in s.pending || s.pending[key] == last;
            && (Enabled(s, GetSetNew(p)) <==> announced) && (Enabled(s, GetSetOver(p)) <==> !announced)
            && var s' := Step(s, if announced then GetSetNew(p) else GetSetOver(p));
            && s'.pending == s.pending[key := last] && s'.queue == s.queue && s'.read == s.read
            && p in s'.tasks
            && s'.tasks[p] == if announced then ServerPublish(key, user, rest) else Serving(user, rest)
  {
    assert ([Item(channel, last)] + rest)[1..] == rest;
  }

  /** A consumer takes the pending position away and commits it, never moving the database
      back. */
  lemma ConsumeCommits(s: State, p: nat, key: Key)
    requires p in s.tasks && s.tasks[p] == Held(key)
    ensures Enabled(s, GetDel(p)) <==> key in s.pending
    ensures key in s.pending ==>
              var s' := Run(s, [GetDel(p), Commit(p)]);
              && key !in s'.pending && key in s'.read && p !in s'.tasks
              && s'.read[key] == (if key in s.read && s.read[key] > s.pending[key] then s.read[key] else s.pending[key])
  {
    if key in s.pending {
      GetDelStep(s, p, key);
      RunTwo(s, GetDel(p), Commit(p));
    }
  }

  // ---------------------------------------------------------------------
  // Everything asked for is committed

  /** The operation asks for position `v` of the key. */
  predicate Asks(a: Action, key: Key, v: Position) {
    || (a.Ask? && a.key == key && a.message == v)
    || (a.AskServer? && a.user == key.user && Item(key.channel, v) in a.items)
  }

  /** Task `p` has still to write position `v` of the key. */
  predicate Owes(s: State, p: nat, key: Key, v: Position) {
    && p in s.tasks
    && match s.tasks[p]
       case Asked(k, m) => k == key && m == v
       case ToSet(k, m) => k == key && m == v
       case Serving(user, todo) => user == key.user && Item(key.channel, v) in todo
       case ServerPublish(_, user, todo) => user == key.user && Item(key.channel, v) in todo
       case _ => false
  }

  lemma OwesKept(s: State, a: Action, p: nat, key: Key, v: Position)
    requires Enabled(s, a) && Owes(s, p, key, v)
    ensures Owes(Do(s, a), p, key, v) || Safe(Do(s, a), key, v)
  {
  }

  lemma AskOwes(s: State, a: Action, key: Key, v: Position)
    requires Enabled(s, a) && Asks(a, key, v)
    ensures Owes(Do(s, a), a.p, key, v)
  {
  }

  lemma {:induction false} OwedOrSafe(s: State, actions: seq<Action>, p: nat, key: Key, v: Position)
    requires Owes(s, p, key, v) || Safe(s, key, v)
    requires NoneLowers(s, actions, key)
    ensures Owes(Run(s, actions), p, key, v) || Safe(Run(s, actions), key, v)
    decreases actions
  {
    if actions != [] {
      if Enabled(s, actions[0]) {
        if Safe(s, key, v) {
          SafeKept(s, actions[0], key, v);
        } else {
          OwesKept(s, actions[0], p, key, v);
        }
      }
      OwedOrSafe(Step(s, actions[0]), actions[1..], p, key, v);
    }
  }

  /** In every run that drains: a position that a request asked for, alone or among the items
      of a server acknowledgement, is reached in the database, if from then on no write lowers
      the pending position of its key. */
  lemma EverythingAskedIsCommitted(before: seq<Action>, a: Action, after: seq<Action>, key: Key, v: Position)
    requires Enabled(Run(EMPTY, before), a) && Asks(a, key, v)
    requires NoneLowers(Run(EMPTY, before + [a]), after, key) && Drained(Run(EMPTY, before + [a] + after))
    ensures var s := Run(EMPTY, before + [a] + after); key in s.read && s.read[key] >= v
  {
    var s := Run(EMPTY, before + [a]);
    RunAppend(EMPTY, before, [a]);
    RunOne(Run(EMPTY, before), a);
    AskOwes(Run(EMPTY, before), a, key, v);
    OwedOrSafe(s, after, a.p, key, v);
    RunAppend(EMPTY, before + [a], after);
    InvariantsRun(EMPTY, before + [a] + after);
    NothingCovered(Run(EMPTY, before + [a] + after), key);
  }

  lemma RunOne(s: State, a: Action)
    ensures Run(s, [a]) == Step(s, a)
  {
    assert [a][1..] == [];
  }

  // ---------------------------------------------------------------------
  // Nothing else is

  /** Some operation of the run asks for position `v` of the key. */
  ghost predicate AskedIn(actions: seq<Action>, key: Key, v: Position) {
    exists j :: 0 <= j < |actions| && Asks(actions[j], key, v)
  }

  ghost predicate TaskAsked(actions: seq<Action>, t: Task) {
    match t
    case Asked(key, m) => AskedIn(actions, key, m)
    case ToSet(key, m) => AskedIn(actions, key, m)
    case Committing(key, m) => AskedIn(actions, key, m)
    case Serving(user, todo) => forall i <- todo :: AskedIn(actions, Key(user, i.channel), i.last)
    case ServerPublish(_, user, todo) => forall i <- todo :: AskedIn(actions, Key(user, i.channel), i.last)
    case _ => true
  }

  ghost predicate AllAsked(actions: seq<Action>, s: State) {
    && (forall key <- s.pending :: AskedIn(actions, key, s.pending[key]))
    && (forall key <- s.read :: AskedIn(actions, key, s.read[key]))
    && (forall p <- s.tasks :: TaskAsked(actions, s.tasks[p]))
  }

  lemma AskedLater(actions: seq<Action>, a: Action, key: Key, v: Position)
    requires AskedIn(actions, key, v)
    ensures AskedIn(actions + [a], key, v)
  {
    var j :| 0 <= j < |actions| && Asks(actions[j], key, v);
    assert (actions + [a])[j] == actions[j];
  }

  lemma AskedNow(actions: seq<Action>, a: Action, key: Key, v: Position)
    requires Asks(a, key, v)
    ensures AskedIn(actions + [a], key, v)
  {
    assert (actions + [a])[|actions|] == a;
  }

  lemma TaskLater(actions: seq<Action>, a: Action, t: Task)
    requires TaskAsked(actions, t)
    ensures TaskAsked(actions + [a], t)
  {
    match t
    case Asked(key, m) => AskedLater(actions, a, key, m);
    case ToSet(key, m) => AskedLater(actions, a, key, m);
    case Committing(key, m) => AskedLater(actions, a, key, m);
    case Serving(user, todo) => ItemsLater(actions, a, user, todo);
    case ServerPublish(_, user, todo) => ItemsLater(actions, a, user, todo);
    case _ =>
  }

  lemma ItemsLater(actions: seq<Action>, a: Action, user: Id, todo: seq<Item>)
    requires forall i <- todo :: AskedIn(actions, Key(user, i.channel), i.last)
    ensures forall i <- todo :: AskedIn(actions + [a], Key(user, i.channel), i.last)
  {
    forall i | i in todo
      ensures AskedIn(actions + [a], Key(user, i.channel), i.last)
    {
      AskedLater(actions, a, Key(user, i.channel), i.last);
    }
  }

  /** A task after an operation carries what it or the pending position carried, or what the
      operation asks for. */
  lemma TaskStep(actions: seq<Action>, s: State, a: Action, p: nat)
    requires AllAsked(actions, s) && Enabled(s, a) && !Starts(a) && p in Do(s, a).tasks
    ensures TaskAsked(actions, Do(s, a).tasks[p])
  {
    if p == a.p {
      assert TaskAsked(actions, s.tasks[p]);
    }
  }

  lemma StartStep(actions: seq<Action>, s: State, a: Action)
    requires Enabled(s, a) && Starts(a)
    ensures TaskAsked(actions + [a], Do(s, a).tasks[a.p])
  {
    match a
    case Ask(_, key, message) => AskedNow(actions, a, key, message);
    case AskServer(_, user, items) =>
      forall i | i in items
        ensures AskedIn(actions + [a], Key(user, i.channel), i.last)
      {
        assert i == Item(i.channel, i.last);
        AskedNow(actions, a, Key(user, i.channel), i.last);
      }
    case _ =>
  }

  lemma PendingStep(actions: seq<Action>, s: State, a: Action, key: Key)
    requires AllAsked(actions, s) && Enabled(s, a)
    ensures key in Do(s, a).pending ==> AskedIn(actions, key, Do(s, a).pending[key])
    ensures key in Do(s, a).read ==> AskedIn(actions, key, Do(s, a).read[key])
  {
    if !Starts(a) {
      assert TaskAsked(actions, s.tasks[a.p]);
    }
  }

  lemma AllAskedStep(actions: seq<Action>, s: State, a: Action)
    requires AllAsked(actions, s) && Enabled(s, a)
    ensures AllAsked(actions + [a], Do(s, a))
  {
    var s' := Do(s, a);
    forall key
      ensures key in s'.pending ==> AskedIn(actions + [a], key, s'.pending[key])
      ensures key in s'.read ==> AskedIn(actions + [a], key, s'.read[key])
    {
      PendingStep(actions, s, a, key);
      if key in s'.pending {
        AskedLater(actions, a, key, s'.pending[key]);
      }
      if key in s'.read {
        AskedLater(actions, a, key, s'.read[key]);
      }
    }
    forall p | p in s'.tasks
      ensures TaskAsked(actions + [a], s'.tasks[p])
    {
      if Starts(a) && p == a.p {
        StartStep(actions, s, a);
      } else {
        if !Starts(a) {
          TaskStep(actions, s, a, p);
        }
        TaskLater(actions, a, s'.tasks[p]);
      }
    }
  }

  lemma AllAskedIdle(actions: seq<Action>, s: State, a: Action)
    requires AllAsked(actions, s)
    ensures AllAsked(actions + [a], s)
  {
    forall key
      ensures key in s.pending ==> AskedIn(actions + [a], key, s.pending[key])
      ensures key in s.read ==> AskedIn(actions + [a], key, s.read[key])
    {
      if key in s.pending {
        AskedLater(actions, a, key, s.pending[key]);
      }
      if key in s.read {
        AskedLater(actions, a, key, s.read[key]);
      }
    }
    forall p | p in s.tasks
      ensures TaskAsked(actions + [a], s.tasks[p])
    {
      TaskLater(actions, a, s.tasks[p]);
    }
  }

  lemma {:induction false} AllAskedRun(actions: seq<Action>)
    ensures AllAsked(actions, Run(EMPTY, actions))
  {
    if actions != [] {
      var init, a := actions[..|actions| - 1], actions[|actions| - 1];
      assert actions == init + [a];
      AllAskedRun(init);
      RunAppend(EMPTY, init, [a]);
      RunOne(Run(EMPTY, init), a);
      if Enabled(Run(EMPTY, init), a) {
        AllAskedStep(init, Run(EMPTY, init), a);
      } else {
        AllAskedIdle(init, Run(EMPTY, init), a);
      }
    }
  }

  /** In every run, what is pending for a key and what the database holds for it are positions
      that some request asked for, for that user and that channel. */
  lemma OnlyWhatWasAsked(actions: seq<Action>, key: Key)
    ensures var s := Run(EMPTY, actions);
            && (key in s.pending ==> AskedIn(actions, key, s.pending[key]))
            && (key in s.read ==> AskedIn(actions, key, s.read[key]))
  {
    AllAskedRun(actions);
  }

  // ---------------------------------------------------------------------
  // Events in order

  /** The keys published in a run, in order. */
  function Published(s: State, actions: seq<Action>): seq<Key>
    decreases actions
  {
    if actions == [] then []
    else PublishedBy(s, actions[0]) + Published(Step(s, actions[0]), actions[1..])
  }

  /** The keys that consumers were given in a run, in order. */
  function Delivered(s: State, actions: seq<Action>): seq<Key>
    decreases actions
  {
    if actions == [] then []
    else DeliveredBy(s, actions[0]) + Delivered(Step(s, actions[0]), actions[1..])
  }

  /** The key published, and the key delivered, by one operation. */
  function PublishedBy(s: State, a: Action): seq<Key> {
    if Enabled(s, a) && (a.Publish? || a.PublishServer?) then [s.tasks[a.p].key] else []
  }

  function DeliveredBy(s: State, a: Action): seq<Key> {
    if Enabled(s, a) && a.Take? && a.p in Step(s, a).tasks && Step(s, a).tasks[a.p].Held? then [Step(s, a).tasks[a.p].key]
    else []
  }

  lemma QueueStep(s: State, a: Action)
    ensures s.queue + PublishedBy(s, a) == DeliveredBy(s, a) + Step(s, a).queue
  {
  }

  lemma Chain<T>(q: seq<T>, p: seq<T>, d: seq<T>, q': seq<T>, ps: seq<T>, ds: seq<T>, end: seq<T>)
    requires q + p == d + q' && q' + ps == ds + end
    ensures q + (p + ps) == (d + ds) + end
  {
    assert q + (p + ps) == (q + p) + ps;
    assert (d + ds) + end == d + (ds + end);
    assert (d + q') + ps == d + (q' + ps);
  }

  /** In every interleaving the queue delivers what was published, in order and once. */
  lemma {:induction false} QueueInOrder(s: State, actions: seq<Action>)
    ensures s.queue + Published(s, actions) == Delivered(s, actions) + Run(s, actions).queue
    decreases actions
  {
    if actions != [] {
      var a := actions[0];
      var s' := Step(s, a);
      QueueInOrder(s', actions[1..]);
      QueueStep(s, a);
      Chain(s.queue, PublishedBy(s, a), DeliveredBy(s, a), s'.queue, Published(s', actions[1..]),
            Delivered(s', actions[1..]), Run(s, actions).queue);
    }
  }
}
