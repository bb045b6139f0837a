/** What goes wrong in the coalescing service when two calls enqueue the same ID: from
    every calm state in which that can happen, it can leave a call that never returns. */
module CoalesceLoss {
  import opened Entities
  import opened Coalesce
  import opened CoalesceProgress

  /** With no execution allowed at all, a call that was queued spins forever. */
  lemma {:induction false} ZeroLimitSpins(c: Config, s: State, actions: seq<Action>, p: nat)
    requires c.maxConcurrent == Some(0) && At(s, p, Spinning)
    ensures At(Run(c, s, actions), p, Spinning)
    decreases actions
  {
    if actions != [] {
      ZeroLimitSpins(c, Step(c, s, actions[0]), actions[1..], p);
    }
  }

  /** The call is in the admission loop, its ID is not in the queue, and no other call
      is about to put it there. */
  ghost predicate Lost(s: State, p: nat) {
    && p in s.procs && (s.procs[p].pc.Spinning? || s.procs[p].pc.SpinCheck?)
    && s.procs[p].id !in s.queue
    && forall q <- s.procs :: s.procs[q].id == s.procs[p].id ==>
         !s.procs[q].pc.Start? && !s.procs[q].pc.AtQueue? && !s.procs[q].pc.ToEnqueue?
  }

  lemma LostStep(c: Config, s: State, a: Action, p: nat)
    requires OrderOk(s) && Lost(s, p) && !(a.Call? && a.id == s.procs[p].id)
    ensures Lost(Step(c, s, a), p) && Step(c, s, a).procs[p].id == s.procs[p].id
  {
    if Enabled(c, s, a) {
      IdKept(c, s, a, p);
      assert s.order != [] ==> s.order[0] in s.order;
      var s' := Do(c, s, a);
      forall q | q in s'.procs && s'.procs[q].id == s.procs[p].id
        ensures !s'.procs[q].pc.Start? && !s'.procs[q].pc.AtQueue? && !s'.procs[q].pc.ToEnqueue?
      {
        if q in s.procs {
          IdKept(c, s, a, q);
        }
      }
    }
  }

  /** A lost call never returns, unless somebody calls with its ID again. */
  lemma {:induction false} LostForever(c: Config, s: State, actions: seq<Action>, p: nat)
    requires OrderOk(s) && Lost(s, p)
    requires forall i :: 0 <= i < |actions| ==> !(actions[i].Call? && actions[i].id == s.procs[p].id)
    ensures Lost(Run(c, s, actions), p)
    decreases actions
  {
    if actions != [] {
      LostStep(c, s, actions[0], p);
      OrderStep(c, s, actions[0]);
      LostForever(c, Step(c, s, actions[0]), actions[1..], p);
    }
  }

  /** A call that joined a lost one waits as long. */
  lemma {:induction false} JoinerOfLostWaits(c: Config, s: State, actions: seq<Action>, p: nat, q: nat)
    requires Inv(s) && OrderOk(s) && Lost(s, q) && At(s, p, Waiting(Queue(q)))
    requires forall i :: 0 <= i < |actions| ==> !(actions[i].Call? && actions[i].id == s.procs[q].id)
    ensures At(Run(c, s, actions), p, Waiting(Queue(q)))
    decreases actions
  {
    if actions != [] {
      var s' := Step(c, s, actions[0]);
      NothingSent(s, q);
      LostStep(c, s, actions[0], q);
      OrderStep(c, s, actions[0]);
      InvStep(c, s, actions[0]);
      if Enabled(c, s, actions[0]) {
        IdKept(c, s, actions[0], p);
      }
      JoinerOfLostWaits(c, s', actions[1..], p, q);
    }
  }

  lemma NothingSent(s: State, q: nat)
    requires Inv(s) && Lost(s, q)
    ensures Queue(q) !in s.sent
  {
    assert q !in s.made;
    assert Queue(q) in s.sent ==> Queue(q).owner in s.made;
  }

  // ---------------------------------------------------------------------
  // From every calm state with a race

  /** How far a call is from its return, the admission loop counted step by step. */
  function Rank(pc: Pc): nat {
    if pc.SpinCheck? then 19 else 2 * Weight(pc)
  }

  function RankTotal(procs: map<nat, Process>, n: nat): nat {
    if n == 0 then 0
    else RankTotal(procs, n - 1) + if n - 1 in procs then Rank(procs[n - 1].pc) else 0
  }

  lemma {:induction false} RankDrops(procs: map<nat, Process>, n: nat, p: nat, pr: Process)
    requires p in procs && Rank(pr.pc) < Rank(procs[p].pc)
    ensures p < n ==> RankTotal(procs[p := pr], n) < RankTotal(procs, n)
    ensures p >= n ==> RankTotal(procs[p := pr], n) == RankTotal(procs, n)
  {
    if n > 0 {
      RankDrops(procs, n - 1, p, pr);
    }
  }

  /** Call `p` is about to enqueue the ID that call `q` has in the queue. */
  predicate AboutToRace(s: State, p: nat, q: nat) {
    && p in s.procs && s.procs[p].pc.ToEnqueue? && s.procs[p].id in s.queue
    && q == s.queue[s.procs[p].id]
  }

  /** Everybody else has come as far as they can, and the contested ID is at the front. */
  ghost predicate Settled(s: State, p: nat, q: nat) {
    && Calm(s) && AboutToRace(s, p, q) && Leads(s, s.procs[p].id) && s.watchers == map[]
    && forall r <- s.procs :: r != q ==> !Busy(s.procs[r].pc)
  }

  /** A step of somebody else, towards their return. */
  predicate Helps(c: Config, s: State, p: nat, q: nat, a: Action) {
    && Decent(c, s, a) && a.p in s.procs && a.p != p && a.p != q && Rank(Next(c, s, a)) < Rank(s.procs[a.p].pc)
  }

  lemma HelpKeeps(c: Config, s: State, p: nat, q: nat, a: Action)
    requires Calm(s) && AboutToRace(s, p, q) && Helps(c, s, p, q, a)
    ensures Calm(Step(c, s, a)) && AboutToRace(Step(c, s, a), p, q)
    ensures Step(c, s, a).procs == s.procs[a.p := Process(s.procs[a.p].id, Next(c, s, a))]
  {
    CalmStep(c, s, a);
    IdKept(c, s, a, p);
    ContestedStays(c, s, a, s.procs[p].id, q);
  }

  lemma HelpCounts(c: Config, s: State, p: nat, q: nat, a: Action, n: nat)
    requires Calm(s) && AboutToRace(s, p, q) && Helps(c, s, p, q, a) && Below(s, n)
    ensures Calm(Step(c, s, a)) && AboutToRace(Step(c, s, a), p, q) && Below(Step(c, s, a), n)
    ensures RankTotal(Step(c, s, a).procs, n) < RankTotal(s.procs, n)
  {
    HelpKeeps(c, s, p, q, a);
    RankDrops(s.procs, n, a.p, Process(s.procs[a.p].id, Next(c, s, a)));
  }

  /** Only its own call, or a race, takes an ID out of the queue or to another call. */
  lemma ContestedStays(c: Config, s: State, a: Action, id: Id, q: nat)
    requires Calm(s) && id in s.queue && s.queue[id] == q && Decent(c, s, a) && a.p != q
    ensures id in Do(c, s, a).queue && Do(c, s, a).queue[id] == q
  {
    if a.Dequeue? {
      assert InQueue(s.procs[a.p].pc);
    }
  }

  lemma BusyHelps(c: Config, s: State, p: nat, q: nat, r: nat)
    requires Calm(s) && AboutToRace(s, p, q) && r in s.procs && r != q && Busy(s.procs[r].pc)
    ensures Helps(c, s, p, q, BusyStep(c, s, r, _ => ""))
  {
    assert ProcessOk(s, r);
    BusyMoves(c, s, r, _ => "");
  }

  lemma FrontHelps(c: Config, s: State, p: nat, q: nat, h: nat) returns (a: Action)
    requires AboutToRace(s, p, q) && h in s.procs && h != q && h != p && s.watchers == map[]
    requires (s.procs[h].pc.Spinning? || s.procs[h].pc.SpinCheck?) && Leads(s, s.procs[h].id)
    requires c.maxConcurrent != Some(0)
    ensures Helps(c, s, p, q, a)
  {
    if s.procs[h].pc.Spinning? {
      a := SeeRoom(h);
    } else {
      a := SeeFirst(h);
    }
  }

  lemma OthersEmpty(s: State, p: nat, q: nat)
    requires Calm(s) && AboutToRace(s, p, q) && forall r <- s.procs :: r != q ==> !Busy(s.procs[r].pc)
    ensures s.watchers == map[]
  {
    if id :| id in s.watchers {
      assert false;
    }
  }

  /** Whose ID is at the front. */
  lemma FrontOwner(s: State, p: nat, q: nat) returns (h: nat)
    requires Calm(s) && AboutToRace(s, p, q)
    ensures h in s.procs && h != p && InQueue(s.procs[h].pc) && Leads(s, s.procs[h].id)
    ensures h == q ==> Leads(s, s.procs[p].id)
  {
    assert s.procs[p].id in s.order;
    assert s.order[0] in s.order;
    h := s.queue[s.order[0]];
  }

  lemma SettledOrHelped(c: Config, s: State, p: nat, q: nat) returns (a: Action)
    requires Calm(s) && AboutToRace(s, p, q) && !Settled(s, p, q) && c.maxConcurrent != Some(0)
    ensures Helps(c, s, p, q, a)
  {
    if r :| r in s.procs && r != q && Busy(s.procs[r].pc) {
      BusyHelps(c, s, p, q, r);
      a := BusyStep(c, s, r, _ => "");
    } else {
      OthersEmpty(s, p, q);
      var h := FrontOwner(s, p, q);
      a := FrontHelps(c, s, p, q, h);
    }
  }

  lemma {:induction false} Settle(c: Config, s: State, p: nat, q: nat, n: nat) returns (actions: seq<Action>)
    requires Calm(s) && AboutToRace(s, p, q) && Below(s, n) && c.maxConcurrent != Some(0)
    ensures Settled(Run(c, s, actions), p, q)
    decreases RankTotal(s.procs, n)
  {
    actions := [];
    if !Settled(s, p, q) {
      var a := SettledOrHelped(c, s, p, q);
      HelpCounts(c, s, p, q, a, n);
      var rest := Settle(c, Step(c, s, a), p, q, n);
      actions := [a] + rest;
      assert actions[1..] == rest;
    }
  }

  /** After the race: the contested ID is at the front, nothing is registered, and the
      calls for it are past their look at the queue. */
  ghost predicate Raced(s: State, p: nat, q: nat) {
    && OrderOk(s) && p != q && p in s.procs && q in s.procs && s.procs[p].id == s.procs[q].id
    && s.procs[p].pc.Spinning? && InQueue(s.procs[q].pc)
    && Leads(s, s.procs[p].id) && s.watchers == map[]
    && forall r <- s.procs :: s.procs[r].id == s.procs[p].id ==> !s.procs[r].pc.Start? && !s.procs[r].pc.AtQueue?
  }

  lemma RaceHappens(c: Config, s: State, p: nat, q: nat)
    requires Settled(s, p, q)
    ensures Raced(Step(c, s, Enqueue(p)), p, q)
    ensures Step(c, s, Enqueue(p)).procs == s.procs[p := Process(s.procs[p].id, Spinning)]
  {
    assert Enabled(c, s, Enqueue(p));
    OrderStep(c, s, Enqueue(p));
    assert s.procs[p].id in s.order;
  }

  lemma JoinsTheRace(c: Config, s: State, p: nat, q: nat, r: nat)
    requires Raced(s, p, q) && r in s.procs && s.procs[r].pc.ToEnqueue? && s.procs[r].id == s.procs[p].id
    ensures Raced(Step(c, s, Enqueue(r)), p, q)
    ensures Step(c, s, Enqueue(r)).procs == s.procs[r := Process(s.procs[r].id, Spinning)]
  {
    assert Enabled(c, s, Enqueue(r));
    OrderStep(c, s, Enqueue(r));
    assert s.order[0] in s.order;
  }

  /** Call `q` goes on until it takes the contested place; `p` is left behind. */
  lemma TakesThePlace(c: Config, s: State, p: nat, q: nat)
    requires Raced(s, p, q) && s.procs[q].pc.ToDequeue?
    requires forall r <- s.procs :: s.procs[r].id == s.procs[p].id ==> !s.procs[r].pc.ToEnqueue?
    ensures Lost(Step(c, s, Dequeue(q)), p)
  {
    assert Enabled(c, s, Dequeue(q));
  }

  lemma Advances(c: Config, s: State, p: nat, q: nat) returns (a: Action)
    requires Raced(s, p, q) && !s.procs[q].pc.ToDequeue? && c.maxConcurrent != Some(0)
    ensures Raced(Step(c, s, a), p, q) && Rank(Step(c, s, a).procs[q].pc) < Rank(s.procs[q].pc)
    ensures Step(c, s, a).procs == s.procs[q := Process(s.procs[q].id, Step(c, s, a).procs[q].pc)]
    ensures !Step(c, s, a).procs[q].pc.ToEnqueue?
  {
    if s.procs[q].pc.Spinning? {
      a := SeeRoom(q);
    } else {
      a := SeeFirst(q);
    }
    assert Enabled(c, s, a);
  }

  lemma {:induction false} Overtakes(c: Config, s: State, p: nat, q: nat, n: nat) returns (actions: seq<Action>)
    requires Raced(s, p, q) && Below(s, n) && c.maxConcurrent != Some(0)
    ensures Lost(Run(c, s, actions), p)
    decreases RankTotal(s.procs, n)
  {
    if r :| r in s.procs && s.procs[r].pc.ToEnqueue? && s.procs[r].id == s.procs[p].id {
      JoinsTheRace(c, s, p, q, r);
      RankDrops(s.procs, n, r, Process(s.procs[r].id, Spinning));
      var rest := Overtakes(c, Step(c, s, Enqueue(r)), p, q, n);
      actions := [Enqueue(r)] + rest;
      assert actions[1..] == rest;
    } else if s.procs[q].pc.ToDequeue? {
      TakesThePlace(c, s, p, q);
      actions := [Dequeue(q)];
      assert actions[1..] == [];
      assert Run(c, Step(c, s, Dequeue(q)), []) == Step(c, s, Dequeue(q));
    } else {
      var a := Advances(c, s, p, q);
      RankDrops(s.procs, n, q, Step(c, s, a).procs[q]);
      var rest := Overtakes(c, Step(c, s, a), p, q, n);
      actions := [a] + rest;
      assert actions[1..] == rest;
    }
  }

  /** From every calm state in which a call can race, there is a continuation that leaves
      that call lost: it can spin forever. */
  lemma EveryRaceCanLose(c: Config, s: State, p: nat)
    requires Calm(s) && Races(s, Enqueue(p)) && c.maxConcurrent != Some(0)
    ensures exists actions :: Lost(Run(c, s, actions), p)
  {
    var n := BoundOf(s.procs.Keys);
    var q := s.queue[s.procs[p].id];
    var settle := Settle(c, s, p, q, n);
    var t := Run(c, s, settle);
    RaceHappens(c, t, p, q);
    var t' := Step(c, t, Enqueue(p));
    var m := BoundOf(t'.procs.Keys);
    var rest := Overtakes(c, t', p, q, m);
    var more := [Enqueue(p)] + rest;
    assert more[1..] == rest;
    RunAppend(c, s, settle, more);
    assert Lost(Run(c, s, settle + more), p);
  }

  lemma BoundOf(keys: set<nat>) returns (n: nat)
    ensures forall p <- keys :: p < n
  {
    n := 0;
    var left := keys;
    while left != {}
      invariant left <= keys
      invariant forall p <- keys :: p !in left ==> p < n
      decreases left
    {
      var p :| p in left;
      left := left - {p};
      n := n + p + 1;
    }
  }

  // ---------------------------------------------------------------------
  // Such a state is reached from the start

  ghost predicate Reaches(c: Config, s: State, s': State) {
    exists actions: seq<Action> :: Run(c, s, actions) == s'
  }

  lemma {:induction false} RunAppend(c: Config, s: State, a: seq<Action>, b: seq<Action>)
    ensures Run(c, s, a + b) == Run(c, Run(c, s, a), b)
    decreases a
  {
    if a == [] {
      assert a + b == b;
    } else {
      assert (a + b)[1..] == a[1..] + b;
      RunAppend(c, Step(c, s, a[0]), a[1..], b);
    }
  }

  lemma ReachStep(c: Config, s: State, t: State, a: Action)
    requires Reaches(c, s, t)
    ensures Reaches(c, s, Step(c, t, a))
  {
    var actions :| Run(c, s, actions) == t;
    assert [a][1..] == [];
    assert Run(c, Step(c, t, a), []) == Step(c, t, a);
    assert Run(c, t, [a]) == Step(c, t, a);
    RunAppend(c, s, actions, [a]);
  }

  const ONE := Config(Some(1), true, None)

  /** Call 0 is for "a"; calls 1 and 2 are for "b". */
  function Scene(zero: Pc, one: Pc, two: Pc): map<nat, Process> {
    map[0 := Process("a", zero), 1 := Process("b", one), 2 := Process("b", two)]
  }

  const CALLED := State(Scene(Start, Start, Start), map[], map[], [], map[], map[])
  const CHOSEN := State(Scene(Inserting(false), Start, Start), map[], map[], [], map[], map[])
  const RUNNING := State(Scene(Running(false), Start, Start), map["a" := 0], map[], [], map[], map[])
  const QUEUEING := State(Scene(Running(false), AtQueue, Start), map["a" := 0], map[], [], map[], map[])
  const BOTH_QUEUEING := State(Scene(Running(false), AtQueue, AtQueue), map["a" := 0], map[], [], map[], map[])
  const MISSED := State(Scene(Running(false), ToEnqueue, AtQueue), map["a" := 0], map[], [], map[], map[])
  const BOTH_MISSED := State(Scene(Running(false), ToEnqueue, ToEnqueue), map["a" := 0], map[], [], map[], map[])
  const QUEUED := State(Scene(Running(false), Spinning, ToEnqueue), map["a" := 0], map["b" := 1], ["b"], map[], map[])

  lemma ReachCalled()
    ensures Reaches(ONE, EMPTY, CALLED)
  {
    assert Run(ONE, EMPTY, []) == EMPTY;
    ReachStep(ONE, EMPTY, EMPTY, Call(0, "a"));
    var s1 := Step(ONE, EMPTY, Call(0, "a"));
    ReachStep(ONE, EMPTY, s1, Call(1, "b"));
    var s2 := Step(ONE, s1, Call(1, "b"));
    ReachStep(ONE, EMPTY, s2, Call(2, "b"));
    assert Step(ONE, s2, Call(2, "b")) == CALLED;
  }

  lemma ToChosen()
    ensures Step(ONE, CALLED, Direct(0)) == CHOSEN
  {
  }

  lemma ToRunning()
    ensures Step(ONE, CHOSEN, Insert(0)) == RUNNING
  {
  }

  lemma ToQueueing()
    ensures Step(ONE, RUNNING, Full(1)) == QUEUEING
  {
    assert |map["a" := 0 as nat]| == 1;
  }

  lemma ToBothQueueing()
    ensures Step(ONE, QUEUEING, Full(2)) == BOTH_QUEUEING
  {
    assert |map["a" := 0 as nat]| == 1;
  }

  lemma ToMissed()
    ensures Step(ONE, BOTH_QUEUEING, Miss(1)) == MISSED
  {
  }

  lemma ToBothMissed()
    ensures Step(ONE, MISSED, Miss(2)) == BOTH_MISSED
  {
  }

  lemma ToQueued()
    ensures Step(ONE, BOTH_MISSED, Enqueue(1)) == QUEUED
  {
  }

  lemma ReachBothMissed()
    ensures Reaches(ONE, EMPTY, BOTH_MISSED)
  {
    ReachCalled();
    ToChosen();
    ReachStep(ONE, EMPTY, CALLED, Direct(0));
    ToRunning();
    ReachStep(ONE, EMPTY, CHOSEN, Insert(0));
    ToQueueing();
    ReachStep(ONE, EMPTY, RUNNING, Full(1));
    ToBothQueueing();
    ReachStep(ONE, EMPTY, QUEUEING, Full(2));
    ToMissed();
    ReachStep(ONE, EMPTY, BOTH_QUEUEING, Miss(1));
    ToBothMissed();
    ReachStep(ONE, EMPTY, MISSED, Miss(2));
  }

  lemma ReachQueued() returns (actions: seq<Action>)
    ensures Run(ONE, EMPTY, actions) == QUEUED
  {
    ReachBothMissed();
    ToQueued();
    ReachStep(ONE, EMPTY, BOTH_MISSED, Enqueue(1));
    actions :| Run(ONE, EMPTY, actions) == QUEUED;
  }

  lemma QueuedIsCalm(actions: seq<Action>)
    requires Run(ONE, EMPTY, actions) == QUEUED
    ensures Calm(QUEUED) && Races(QUEUED, Enqueue(2))
  {
    InvRun(ONE, EMPTY, actions);
    QueuedInOrder();
  }

  lemma QueuedInOrder()
    ensures OrderOk(QUEUED) && Solo(QUEUED)
  {
  }

  /** Two calls that race for the same place in the queue: there is a run after which one
      of them never returns, however the run goes on, as long as nobody calls with its
      ID again. */
  lemma RaceCanLoseACall()
    ensures exists actions :: Lost(Run(ONE, EMPTY, actions), 2)
  {
    var before := ReachQueued();
    QueuedIsCalm(before);
    EveryRaceCanLose(ONE, QUEUED, 2);
    var after :| Lost(Run(ONE, QUEUED, after), 2);
    RunAppend(ONE, EMPTY, before, after);
  }
}
