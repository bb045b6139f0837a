/** The read-acknowledgement pipeline: pending positions in Redis, an event queue, and
    consumers that commit to the database, as a state machine over single storage and
    queue operations that interleave freely. Message IDs sort by time, so a position is
    a number. */
module Acks {
  import opened Entities

  type Position = nat

  datatype Key = Key(user: Id, channel: Id)

  datatype Item = Item(channel: Id, last: Position)

  /** Where an acknowledgement request or a consumer stands. */
  datatype Task =
    | Asked(key: Key, message: Position)
    | ToSet(key: Key, message: Position)
    | ToPublish(key: Key)
    | Serving(user: Id, todo: seq<Item>)
    | ServerPublish(key: Key, user: Id, todo: seq<Item>)
    | Held(key: Key)
    | Committing(key: Key, message: Position)

  /** Redis, the queue, the database and the tasks; and, as history, the last position
      written to Redis and the highest one acknowledged, for each key. */
  datatype State = State(
    pending: map<Key, Position>, queue: seq<Key>, read: map<Key, Position>, tasks: map<nat, Task>,
    written: map<Key, Position>, acked: map<Key, Position>)

  const EMPTY := State(map[], [], map[], map[], map[], map[])

  /** One operation each; where an operation has two outcomes, each is an action. */
  datatype Action =
    | Ask(p: nat, key: Key, message: Position)
    | GetStale(p: nat)
    | GetPass(p: nat)
    | Set(p: nat)
    | Publish(p: nat)
    | AskServer(p: nat, user: Id, items: seq<Item>)
    | GetSetNew(p: nat)
    | GetSetOver(p: nat)
    | PublishServer(p: nat)
    | Leave(p: nat)
    | Take(p: nat)
    | GetDel(p: nat)
    | GetDelNone(p: nat)
    | Commit(p: nat)

  /** The pending position is already at or past the message. */
  predicate Stale(s: State, key: Key, message: Position) {
    key in s.pending && s.pending[key] >= message
  }

  /** Whether a server acknowledgement announces the write: only if nothing or the same
      was pending. */
  predicate Announced(s: State, key: Key, last: Position) {
    key !in s.pending || s.pending[key] == last
  }

  predicate Starts(a: Action) {
    a.Ask? || a.AskServer? || a.Take?
  }

  predicate Enabled(s: State, a: Action) {
    if Starts(a) then a.p !in s.tasks && (a.Take? ==> s.queue != []) else
    a.p in s.tasks &&
    var t := s.tasks[a.p];
    match a
    case GetStale(p) => t.Asked? && Stale(s, t.key, t.message)
    case GetPass(p) => t.Asked? && !Stale(s, t.key, t.message)
    case Set(p) => t.ToSet?
    case Publish(p) => t.ToPublish?
    case GetSetNew(p) => t.Serving? && t.todo != [] && Announced(s, Key(t.user, t.todo[0].channel), t.todo[0].last)
    case GetSetOver(p) => t.Serving? && t.todo != [] && !Announced(s, Key(t.user, t.todo[0].channel), t.todo[0].last)
    case PublishServer(p) => t.ServerPublish?
    case Leave(p) => t.Serving? && t.todo == []
    case GetDel(p) => t.Held? && t.key in s.pending
    case GetDelNone(p) => t.Held? && t.key !in s.pending
    case Commit(p) => t.Committing?
    case _ => true
  }

  function Highest(m: map<Key, Position>, key: Key, v: Position): map<Key, Position> {
    m[key := if key in m && m[key] > v then m[key] else v]
  }

  function Without<T>(m: map<Key, T>, key: Key): map<Key, T> {
    map k <- m | k != key :: m[k]
  }

  function Ended(tasks: map<nat, Task>, p: nat): map<nat, Task> {
    map q <- tasks | q != p :: tasks[q]
  }

  /** The key a step writes to Redis, and the position it writes. */
  predicate Writes(a: Action) {
    a.Set? || a.GetSetNew? || a.GetSetOver?
  }

  function WriteKey(s: State, a: Action): Key
    requires Enabled(s, a) && Writes(a)
  {
    var t := s.tasks[a.p];
    if a.Set? then t.key else Key(t.user, t.todo[0].channel)
  }

  function WriteValue(s: State, a: Action): Position
    requires Enabled(s, a) && Writes(a)
  {
    var t := s.tasks[a.p];
    if a.Set? then t.message else t.todo[0].last
  }

  function Pending(s: State, a: Action): map<Key, Position>
    requires Enabled(s, a)
  {
    if Writes(a) then s.pending[WriteKey(s, a) := WriteValue(s, a)]
    else if a.GetDel? then Without(s.pending, s.tasks[a.p].key)
    else s.pending
  }

  function Queue(s: State, a: Action): seq<Key>
    requires Enabled(s, a)
  {
    if a.Publish? || a.PublishServer? then s.queue + [s.tasks[a.p].key]
    else if a.Take? then s.queue[1..]
    else s.queue
  }

  /** The database moves a read position forward only. */
  function Read(s: State, a: Action): map<Key, Position>
    requires Enabled(s, a)
  {
    if a.Commit? then Highest(s.read, s.tasks[a.p].key, s.tasks[a.p].message) else s.read
  }

  function Tasks(s: State, a: Action): map<nat, Task>
    requires Enabled(s, a)
  {
    match a
    case Ask(p, key, message) => s.tasks[p := Asked(key, message)]
    case GetStale(p) => Ended(s.tasks, p)
    case GetPass(p) => s.tasks[p := ToSet(s.tasks[p].key, s.tasks[p].message)]
    case Set(p) => s.tasks[p := ToPublish(s.tasks[p].key)]
    case Publish(p) => Ended(s.tasks, p)
    case AskServer(p, user, items) => s.tasks[p := Serving(user, items)]
    case GetSetNew(p) =>
      s.tasks[p := ServerPublish(WriteKey(s, a), s.tasks[p].user, s.tasks[p].todo[1..])]
    case GetSetOver(p) => s.tasks[p := Serving(s.tasks[p].user, s.tasks[p].todo[1..])]
    case PublishServer(p) => s.tasks[p := Serving(s.tasks[p].user, s.tasks[p].todo)]
    case Leave(p) => Ended(s.tasks, p)
    case Take(p) => s.tasks[p := Held(s.queue[0])]
    case GetDel(p) => s.tasks[p := Committing(s.tasks[p].key, s.pending[s.tasks[p].key])]
    case GetDelNone(p) => Ended(s.tasks, p)
    case Commit(p) => Ended(s.tasks, p)
  }

  /** The key of the next item that a server acknowledgement serves. */
  function NextKey(s: State, p: nat): Key
    requires p in s.tasks && s.tasks[p].Serving? && s.tasks[p].todo != []
  {
    Key(s.tasks[p].user, s.tasks[p].todo[0].channel)
  }

  function Written(s: State, a: Action): map<Key, Position>
    requires Enabled(s, a)
  {
    if a.Set? then s.written[s.tasks[a.p].key := s.tasks[a.p].message]
    else if a.GetSetNew? || a.GetSetOver? then s.written[NextKey(s, a.p) := s.tasks[a.p].todo[0].last]
    else s.written
  }

  /** A request counts as acknowledged when it has written its position, or has found
      one at least as high. */
  function Acked(s: State, a: Action): map<Key, Position>
    requires Enabled(s, a)
  {
    if a.Set? || a.GetStale? then Highest(s.acked, s.tasks[a.p].key, s.tasks[a.p].message)
    else if a.GetSetNew? || a.GetSetOver? then Highest(s.acked, NextKey(s, a.p), s.tasks[a.p].todo[0].last)
    else s.acked
  }

  function Do(s: State, a: Action): State
    requires Enabled(s, a)
  {
    State(Pending(s, a), Queue(s, a), Read(s, a), Tasks(s, a), Written(s, a), Acked(s, a))
  }

  function Step(s: State, a: Action): State {
    if Enabled(s, a) then Do(s, a) else s
  }

  /** Any interleaving of requests and any number of consumers. */
  function Run(s: State, actions: seq<Action>): State
    decreases actions
  {
    if actions == [] then s else Run(Step(s, actions[0]), actions[1..])
  }

  // ---------------------------------------------------------------------
  // A pending position has an event

  /** Task `p` is about to publish an event for the key, or has one in hand. */
  predicate Carries(s: State, p: nat, key: Key) {
    p in s.tasks && (s.tasks[p].ToPublish? || s.tasks[p].ServerPublish? || s.tasks[p].Held?) && s.tasks[p].key == key
  }

  ghost predicate Covered(s: State, key: Key) {
    key in s.queue || exists p :: Carries(s, p, key)
  }

  ghost predicate AllCovered(s: State) {
    forall key <- s.pending :: Covered(s, key)
  }

  lemma CoveredKept(s: State, a: Action, key: Key)
    requires Enabled(s, a) && Covered(s, key) && key in Do(s, a).pending
    ensures Covered(Do(s, a), key)
  {
    var s' := Do(s, a);
    if key in s.queue {
      if a.Take? && key !in s.queue[1..] {
        assert s.queue[0] == key;
        assert Carries(s', a.p, key);
      }
    } else {
      var p :| Carries(s, p, key);
      if a.p == p && (a.Publish? || a.PublishServer?) {
        assert s'.queue[|s.queue|] == key;
      } else {
        assert Carries(s', p, key);
      }
    }
  }

  lemma NewPending(s: State, a: Action, key: Key)
    requires Enabled(s, a) && key in Do(s, a).pending && key !in s.pending
    ensures Covered(Do(s, a), key)
  {
    assert Carries(Do(s, a), a.p, key);
  }

  lemma AllCoveredStep(s: State, a: Action)
    requires AllCovered(s)
    ensures AllCovered(Step(s, a))
  {
    if Enabled(s, a) {
      var s' := Do(s, a);
      forall key | key in s'.pending
        ensures Covered(s', key)
      {
        if key in s.pending {
          CoveredKept(s, a, key);
        } else {
          NewPending(s, a, key);
        }
      }
    }
  }

  // ---------------------------------------------------------------------
  // What was written last is committed

  /** Task `p` is committing at least `v` for the key. */
  predicate Commits(s: State, p: nat, key: Key, v: Position) {
    p in s.tasks && s.tasks[p].Committing? && s.tasks[p].key == key && s.tasks[p].message >= v
  }

  /** A position of at least `v` is pending, being committed, or in the database. */
  ghost predicate Safe(s: State, key: Key, v: Position) {
    || (key in s.pending && s.pending[key] >= v)
    || (key in s.read && s.read[key] >= v)
    || exists p :: Commits(s, p, key, v)
  }

  /** The step overwrites the pending position of the key with a lower one. */
  predicate Lowers(s: State, a: Action, key: Key) {
    key in s.pending && key in Step(s, a).pending && Step(s, a).pending[key] < s.pending[key]
  }

  lemma SafeKept(s: State, a: Action, key: Key, v: Position)
    requires Enabled(s, a) && Safe(s, key, v) && (Lowers(s, a, key) ==> Step(s, a).pending[key] >= v)
    ensures Safe(Do(s, a), key, v)
  {
    var s' := Do(s, a);
    if key in s.pending && s.pending[key] >= v {
      if a.GetDel? && s.tasks[a.p].key == key {
        assert Commits(s', a.p, key, v);
      }
    } else if !(key in s.read && s.read[key] >= v) {
      var p :| Commits(s, p, key, v);
      if !(a.Commit? && a.p == p) {
        assert Commits(s', p, key, v);
      }
    }
  }

  ghost predicate WrittenSafe(s: State) {
    && (forall key <- s.pending :: key in s.written && s.written[key] == s.pending[key])
    && (forall key <- s.written :: Safe(s, key, s.written[key]))
  }

  lemma WrittenSafeStep(s: State, a: Action)
    requires WrittenSafe(s)
    ensures WrittenSafe(Step(s, a))
  {
    if Enabled(s, a) {
      var s' := Do(s, a);
      forall key | key in s'.written
        ensures Safe(s', key, s'.written[key])
      {
        if !(Writes(a) && key == WriteKey(s, a)) {
          SafeKept(s, a, key, s.written[key]);
        }
      }
    }
  }

  ghost predicate AckedSafe(s: State, key: Key) {
    key in s.acked ==> Safe(s, key, s.acked[key])
  }

  lemma AckedSafeStep(s: State, a: Action, key: Key)
    requires AckedSafe(s, key) && !Lowers(s, a, key)
    ensures AckedSafe(Step(s, a), key)
  {
    if Enabled(s, a) && key in s.acked {
      SafeKept(s, a, key, s.acked[key]);
    }
  }

  // ---------------------------------------------------------------------
  // Whole runs

  lemma {:induction false} InvariantsRun(s: State, actions: seq<Action>)
    requires AllCovered(s) && WrittenSafe(s)
    ensures AllCovered(Run(s, actions)) && WrittenSafe(Run(s, actions))
    decreases actions
  {
    if actions != [] {
      AllCoveredStep(s, actions[0]);
      WrittenSafeStep(s, actions[0]);
      InvariantsRun(Step(s, actions[0]), actions[1..]);
    }
  }

  predicate Drained(s: State) {
    s.queue == [] && s.tasks == map[]
  }

  lemma NothingCovered(s: State, key: Key)
    requires Drained(s)
    ensures !Covered(s, key)
  {
  }

  /** In every interleaving a pending position has an event queued, in a consumer's
      hands or about to be published. */
  lemma PendingMeansEvent(actions: seq<Action>, key: Key)
    ensures var s := Run(EMPTY, actions); key in s.pending ==> Covered(s, key)
  {
    InvariantsRun(EMPTY, actions);
  }

  /** When everything is drained, nothing is pending, and for every key the database is
      at least at the position written last. */
  lemma DrainedMeansCommitted(actions: seq<Action>)
    requires Drained(Run(EMPTY, actions))
    ensures var s := Run(EMPTY, actions);
            && s.pending == map[]
            && (forall key <- s.written :: key in s.read && s.read[key] >= s.written[key])
  {
    InvariantsRun(EMPTY, actions);
    var s := Run(EMPTY, actions);
    forall key
      ensures key !in s.pending
    {
      NothingCovered(s, key);
    }
    forall key | key in s.written
      ensures key in s.read && s.read[key] >= s.written[key]
    {
      assert Safe(s, key, s.written[key]);
    }
  }

  /** A read position in the database never moves back, in any interleaving and with any
      number of consumers. */
  lemma {:induction false} ReadNeverMovesBack(s: State, actions: seq<Action>, key: Key)
    requires key in s.read
    ensures key in Run(s, actions).read && Run(s, actions).read[key] >= s.read[key]
    decreases actions
  {
    if actions != [] {
      ReadNeverMovesBack(Step(s, actions[0]), actions[1..], key);
    }
  }

  ghost predicate NoneLowers(s: State, actions: seq<Action>, key: Key)
    decreases actions
  {
    actions == [] || (!Lowers(s, actions[0], key) && NoneLowers(Step(s, actions[0]), actions[1..], key))
  }

  lemma {:induction false} AckedSafeRun(s: State, actions: seq<Action>, key: Key)
    requires AllCovered(s) && AckedSafe(s, key) && NoneLowers(s, actions, key)
    ensures AckedSafe(Run(s, actions), key) && AllCovered(Run(s, actions))
    decreases actions
  {
    if actions != [] {
      AllCoveredStep(s, actions[0]);
      AckedSafeStep(s, actions[0], key);
      AckedSafeRun(Step(s, actions[0]), actions[1..], key);
    }
  }

  /** In a run in which no write lowers the pending position of a key, nothing acknowledged
      for it is lost: once drained, the database is at or past every position ever
      acknowledged. */
  lemma NothingAcknowledgedIsLost(actions: seq<Action>, key: Key)
    requires NoneLowers(EMPTY, actions, key) && Drained(Run(EMPTY, actions))
    ensures var s := Run(EMPTY, actions);
            key in s.acked ==> key in s.read && s.read[key] >= s.acked[key]
  {
    AckedSafeRun(EMPTY, actions, key);
    NothingCovered(Run(EMPTY, actions), key);
  }

  // ---------------------------------------------------------------------
  // When writes do not lower: one request per key between its read and its write

  predicate SetsKey(s: State, p: nat, key: Key) {
    p in s.tasks && s.tasks[p].ToSet? && s.tasks[p].key == key
  }

  /** A request for the key may pass its read only while no other one is between its read
      and its write; and no server acknowledgement writes the key. */
  ghost predicate Orderly(s: State, a: Action, key: Key) {
    Enabled(s, a) ==>
      && ((a.GetSetNew? || a.GetSetOver?) ==> NextKey(s, a.p) != key)
      && (a.GetPass? && s.tasks[a.p].key == key ==> forall q :: !SetsKey(s, q, key))
  }

  /** Who passed its read is still ahead of the pending position, and alone. */
  ghost predicate Ahead(s: State, key: Key) {
    && (forall p :: SetsKey(s, p, key) ==> !Stale(s, key, s.tasks[p].message))
    && (forall p, q :: SetsKey(s, p, key) && SetsKey(s, q, key) ==> p == q)
  }

  lemma SetsKeyBefore(s: State, a: Action, p: nat, key: Key)
    requires Enabled(s, a) && SetsKey(Do(s, a), p, key)
    ensures || (a.GetPass? && a.p == p && p in s.tasks && s.tasks[p].key == key && !Stale(s, key, Do(s, a).tasks[p].message))
            || (SetsKey(s, p, key) && a.p != p && s.tasks[p] == Do(s, a).tasks[p])
  {
  }

  lemma AheadStep(s: State, a: Action, key: Key)
    requires Ahead(s, key) && Orderly(s, a, key)
    ensures Ahead(Step(s, a), key) && !Lowers(s, a, key)
  {
    if Enabled(s, a) {
      var s' := Do(s, a);
      assert a.Set? && s.tasks[a.p].key == key ==> SetsKey(s, a.p, key);
      forall p | SetsKey(s', p, key)
        ensures !Stale(s', key, s'.tasks[p].message)
      {
        SetsKeyBefore(s, a, p, key);
      }
      forall p, q | SetsKey(s', p, key) && SetsKey(s', q, key)
        ensures p == q
      {
        SetsKeyBefore(s, a, p, key);
        SetsKeyBefore(s, a, q, key);
      }
    }
  }

  ghost predicate AllOrderly(s: State, actions: seq<Action>, key: Key)
    decreases actions
  {
    actions == [] || (Orderly(s, actions[0], key) && AllOrderly(Step(s, actions[0]), actions[1..], key))
  }

  /** Requests for a key that do not overlap between read and write never move its pending
      position back. */
  lemma {:induction false} OrderlyNeverLowers(s: State, actions: seq<Action>, key: Key)
    requires Ahead(s, key) && AllOrderly(s, actions, key)
    ensures NoneLowers(s, actions, key)
    decreases actions
  {
    if actions != [] {
      AheadStep(s, actions[0], key);
      OrderlyNeverLowers(Step(s, actions[0]), actions[1..], key);
    }
  }

  // ---------------------------------------------------------------------
  // When requests overlap

  lemma {:induction false} RunAppend(s: State, a: seq<Action>, b: seq<Action>)
    ensures Run(s, a + b) == Run(Run(s, a), b)
    decreases a
  {
    if a == [] {
      assert a + b == b;
    } else {
      assert (a + b)[1..] == a[1..] + b;
      RunAppend(Step(s, a[0]), a[1..], b);
    }
  }

  lemma RunTwo(s: State, a: Action, b: Action)
    ensures Run(s, [a, b]) == Step(Step(s, a), b)
  {
    assert [a, b][1..] == [b];
    assert [b][1..] == [];
    assert Run(Step(s, a), [b]) == Run(Step(Step(s, a), b), []);
  }

  lemma RunFour(s: State, a: Action, b: Action, c: Action, d: Action)
    ensures Run(s, [a, b, c, d]) == Step(Step(Step(Step(s, a), b), c), d)
  {
    RunTwo(s, a, b);
    RunTwo(Run(s, [a, b]), c, d);
    RunAppend(s, [a, b], [c, d]);
    assert [a, b] + [c, d] == [a, b, c, d];
  }

  lemma PassStep(s: State, p: nat, key: Key, m: Position)
    requires p in s.tasks && s.tasks[p] == Asked(key, m) && !Stale(s, key, m)
    ensures Step(s, GetPass(p)) == s.(tasks := s.tasks[p := ToSet(key, m)])
  {
  }

  lemma SetStep(s: State, p: nat, key: Key, m: Position)
    requires p in s.tasks && s.tasks[p] == ToSet(key, m)
    ensures Step(s, Set(p)) == s.(pending := s.pending[key := m], tasks := s.tasks[p := ToPublish(key)],
                                  written := s.written[key := m], acked := Highest(s.acked, key, m))
  {
  }

  lemma OverlapResult(s: State, p: nat, q: nat, key: Key, m: Position, n: Position)
    requires p != q && p in s.tasks && q in s.tasks && s.tasks[p] == Asked(key, m) && s.tasks[q] == Asked(key, n)
    requires !Stale(s, key, m) && !Stale(s, key, n)
    ensures Run(s, [GetPass(p), GetPass(q), Set(q), Set(p)]) ==
            s.(pending := s.pending[key := n][key := m],
               tasks := s.tasks[p := ToSet(key, m)][q := ToSet(key, n)][q := ToPublish(key)][p := ToPublish(key)],
               written := s.written[key := n][key := m], acked := Highest(Highest(s.acked, key, n), key, m))
  {
    PassStep(s, p, key, m);
    var s1 := Step(s, GetPass(p));
    PassStep(s1, q, key, n);
    var s2 := Step(s1, GetPass(q));
    SetStep(s2, q, key, n);
    var s3 := Step(s2, Set(q));
    SetStep(s3, p, key, m);
    RunFour(s, GetPass(p), GetPass(q), Set(q), Set(p));
  }

  /** Two requests for one key that both pass their read before either writes: the one
      that writes last decides, so the pending position ends at or past both exactly
      when the last writer has the higher one. */
  lemma OverlapExactly(s: State, p: nat, q: nat, key: Key, m: Position, n: Position)
    requires p != q && p in s.tasks && q in s.tasks && s.tasks[p] == Asked(key, m) && s.tasks[q] == Asked(key, n)
    requires !Stale(s, key, m) && !Stale(s, key, n)
    ensures var s' := Run(s, [GetPass(p), GetPass(q), Set(q), Set(p)]);
            Stale(s', key, m) && (Stale(s', key, n) <==> m >= n)
  {
    OverlapResult(s, p, q, key, m, n);
  }

  /** One after the other, the pending position always ends at or past both. */
  lemma InTurnKeepsBoth(s: State, p: nat, q: nat, key: Key, m: Position, n: Position)
    requires p != q && p in s.tasks && q in s.tasks && s.tasks[p] == Asked(key, m) && s.tasks[q] == Asked(key, n)
    requires !Stale(s, key, n)
    ensures var s1 := Run(s, [GetPass(q), Set(q)]);
            var s' := if Stale(s1, key, m) then Step(s1, GetStale(p)) else Run(s1, [GetPass(p), Set(p)]);
            Stale(s', key, m) && Stale(s', key, n)
  {
    PassStep(s, q, key, n);
    SetStep(Step(s, GetPass(q)), q, key, n);
    RunTwo(s, GetPass(q), Set(q));
    var s1 := Run(s, [GetPass(q), Set(q)]);
    if !Stale(s1, key, m) {
      PassStep(s1, p, key, m);
      SetStep(Step(s1, GetPass(p)), p, key, m);
      RunTwo(s1, GetPass(p), Set(p));
    }
  }

  lemma OverlapAsks(key: Key)
    ensures Run(EMPTY, [Ask(0, key, 5), Ask(1, key, 9)]) ==
            State(map[], [], map[], map[0 := Asked(key, 5), 1 := Asked(key, 9)], map[], map[])
  {
    RunTwo(EMPTY, Ask(0, key, 5), Ask(1, key, 9));
  }

  lemma OverlapWrites(key: Key)
    ensures Run(EMPTY, [Ask(0, key, 5), Ask(1, key, 9)] + [GetPass(0), GetPass(1), Set(1), Set(0)]) ==
            State(map[key := 5], [], map[], map[0 := ToPublish(key), 1 := ToPublish(key)], map[key := 5], map[key := 9])
  {
    OverlapAsks(key);
    var tasks: map<nat, Task> := map[0 := Asked(key, 5), 1 := Asked(key, 9)];
    OverlapResult(State(map[], [], map[], tasks, map[], map[]), 0, 1, key, 5, 9);
    RunAppend(EMPTY, [Ask(0, key, 5), Ask(1, key, 9)], [GetPass(0), GetPass(1), Set(1), Set(0)]);
    OverlapMaps(key, tasks);
  }

  lemma OverlapMaps(key: Key, tasks: map<nat, Task>)
    requires tasks == map[0 := Asked(key, 5), 1 := Asked(key, 9)]
    ensures tasks[0 := ToSet(key, 5)][1 := ToSet(key, 9)][1 := ToPublish(key)][0 := ToPublish(key)] ==
            map[0 := ToPublish(key), 1 := ToPublish(key)]
    ensures Highest(Highest(map[], key, 9), key, 5) == map[key := 9]
    ensures map[key := 9 as Position][key := 5] == map[key := 5]
  {
  }

  lemma OverlapPublishes(key: Key, s: State)
    requires s.pending == map[key := 5] && s.queue == [] && s.read == map[]
    requires s.tasks == map[0 := ToPublish(key), 1 := ToPublish(key)]
    ensures Run(s, [Publish(0), Publish(1)]) == s.(queue := [key, key], tasks := map[])
  {
    RunTwo(s, Publish(0), Publish(1));
    assert Step(s, Publish(0)) == s.(queue := [key], tasks := map[1 := ToPublish(key)]);
  }

  lemma TakeStep(s: State, p: nat)
    requires p !in s.tasks && s.queue != []
    ensures Step(s, Take(p)) == s.(queue := s.queue[1..], tasks := s.tasks[p := Held(s.queue[0])])
  {
  }

  lemma GetDelStep(s: State, p: nat, key: Key)
    requires p in s.tasks && s.tasks[p] == Held(key) && key in s.pending
    ensures Step(s, GetDel(p)) ==
            s.(pending := Without(s.pending, key), tasks := s.tasks[p := Committing(key, s.pending[key])])
  {
  }

  lemma TakeFirst(key: Key, s: State)
    requires s.queue == [key, key] && s.tasks == map[]
    ensures Step(s, Take(0)) == s.(queue := [key], tasks := map[0 := Held(key)])
  {
    TakeStep(s, 0);
  }

  lemma ConsumeFirst(key: Key, s: State)
    requires s.pending == map[key := 5] && s.queue == [key, key] && s.tasks == map[]
    ensures Run(s, [Take(0), GetDel(0)]) == s.(pending := map[], queue := [key], tasks := map[0 := Committing(key, 5)])
  {
    RunTwo(s, Take(0), GetDel(0));
    TakeFirst(key, s);
    var s1 := s.(queue := [key], tasks := map[0 := Held(key)]);
    GetDelStep(s1, 0, key);
    assert Without(s1.pending, key) == map[];
    assert s1.tasks[0 := Committing(key, 5)] == map[0 := Committing(key, 5)];
  }

  lemma CommitFirst(key: Key, s: State)
    requires s.pending == map[] && s.queue == [key] && s.read == map[] && s.tasks == map[0 := Committing(key, 5)]
    ensures Run(s, [Commit(0), Take(0)]) == s.(queue := [], read := map[key := 5], tasks := map[0 := Held(key)])
  {
    RunTwo(s, Commit(0), Take(0));
    assert Step(s, Commit(0)) == s.(read := map[key := 5], tasks := map[]);
  }

  lemma RejectSecond(key: Key, s: State)
    requires s.pending == map[] && s.tasks == map[0 := Held(key)]
    ensures Run(s, [GetDelNone(0)]) == s.(tasks := map[])
  {
    assert [GetDelNone(0)][1..] == [];
    assert Step(s, GetDelNone(0)) == s.(tasks := map[]);
  }

  /** The position a slower request overwrites is lost for good: 9 is acknowledged, and
      when all is drained the database is at 5. */
  lemma OverlapLoses(key: Key) returns (actions: seq<Action>)
    ensures Drained(Run(EMPTY, actions))
    ensures var s := Run(EMPTY, actions); s.acked == map[key := 9] && s.read == map[key := 5]
  {
    var a := [Ask(0, key, 5), Ask(1, key, 9)] + [GetPass(0), GetPass(1), Set(1), Set(0)];
    OverlapWrites(key);
    var s1 := Run(EMPTY, a);
    OverlapPublishes(key, s1);
    RunAppend(EMPTY, a, [Publish(0), Publish(1)]);
    var b := a + [Publish(0), Publish(1)];
    ConsumeFirst(key, Run(EMPTY, b));
    RunAppend(EMPTY, b, [Take(0), GetDel(0)]);
    var c := b + [Take(0), GetDel(0)];
    CommitFirst(key, Run(EMPTY, c));
    RunAppend(EMPTY, c, [Commit(0), Take(0)]);
    var d := c + [Commit(0), Take(0)];
    RejectSecond(key, Run(EMPTY, d));
    RunAppend(EMPTY, d, [GetDelNone(0)]);
    actions := d + [GetDelNone(0)];
  }
}
