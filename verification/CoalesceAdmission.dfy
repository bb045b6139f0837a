/** Who may run: what a call does on its way in, why it is turned away, and exactly when two
    functions run for one ID or more run than allowed. */
module CoalesceAdmission {
  import opened Entities
  import opened Coalesce
  import opened CoalesceProgress

  // ---------------------------------------------------------------------
  // The way in, decision by decision

  /** A call that begins: it waits for a registered execution of its ID; else runs, if fewer
      executions than allowed are registered; else goes to the queue, if there is one. */
  lemma StartDecides(c: Config, s: State, p: nat)
    requires At(s, p, Start)
    ensures var id := s.procs[p].id;
            var room := c.maxConcurrent.None? || |s.watchers| < c.maxConcurrent.value;
            && (Enabled(c, s, Join(p)) <==> id in s.watchers)
            && (Enabled(c, s, Direct(p)) <==> id !in s.watchers && room)
            && (Enabled(c, s, Full(p)) <==> id !in s.watchers && !room && c.queueRequests)
            && (Enabled(c, s, Refuse(p)) <==> id !in s.watchers && !room && !c.queueRequests)
            && (id in s.watchers ==> At(Step(c, s, Join(p)), p, Waiting(Watch(s.watchers[id]))))
            && (Enabled(c, s, Direct(p)) ==> At(Step(c, s, Direct(p)), p, Inserting(false)))
            && (Enabled(c, s, Full(p)) ==> At(Step(c, s, Full(p)), p, AtQueue))
            && (Enabled(c, s, Refuse(p)) ==> At(Step(c, s, Refuse(p)), p, Returned(Err(MaxConcurrent))))
  {
  }

  /** A call at the queue: it waits for a queued call of its ID; else it is refused if there
      is a bound that the queue has not passed, and queued otherwise. */
  lemma QueueDecides(c: Config, s: State, p: nat)
    requires At(s, p, AtQueue)
    ensures var id := s.procs[p].id;
            var refused := c.maxQueue.Some? && |s.queue| <= c.maxQueue.value;
            && (Enabled(c, s, JoinQueue(p)) <==> id in s.queue)
            && (Enabled(c, s, QueueFull(p)) <==> id !in s.queue && refused)
            && (Enabled(c, s, Miss(p)) <==> id !in s.queue && !refused)
            && (id in s.queue ==> At(Step(c, s, JoinQueue(p)), p, Waiting(Queue(s.queue[id]))))
            && (Enabled(c, s, QueueFull(p)) ==> At(Step(c, s, QueueFull(p)), p, Returned(Err(MaxQueue))))
  {
  }

  /** A queued call leaves the loop only after seeing room and then its ID in front. */
  lemma LoopDecides(c: Config, s: State, p: nat)
    ensures At(s, p, Spinning) ==>
              (Enabled(c, s, SeeRoom(p)) <==> c.maxConcurrent.None? || |s.watchers| < c.maxConcurrent.value)
    ensures At(s, p, SpinCheck) ==>
              && (Enabled(c, s, SeeFirst(p)) <==> |s.order| > 0 && s.order[0] == s.procs[p].id)
              && (Enabled(c, s, SeeFirst(p)) ==> At(Step(c, s, SeeFirst(p)), p, ToDequeue))
              && (!Enabled(c, s, SeeFirst(p)) ==> At(Step(c, s, SeeOther(p)), p, Spinning))
  {
  }

  // ---------------------------------------------------------------------
  // Refusals

  /** A call that was refused, or has come as far as the queue, did so under a configuration
      that says so. */
  predicate Explained(c: Config, pc: Pc) {
    && (pc == Returned(Err(MaxConcurrent)) ==> c.maxConcurrent.Some? && !c.queueRequests)
    && (pc == Returned(Err(MaxQueue)) ==> c.maxConcurrent.Some? && c.queueRequests && c.maxQueue.Some?)
    && (pc.AtQueue? || pc.ToEnqueue? || InQueue(pc) ==> c.maxConcurrent.Some? && c.queueRequests)
  }

  ghost predicate AllExplained(c: Config, s: State) {
    forall p <- s.procs :: Explained(c, s.procs[p].pc)
  }

  lemma ExplainedStep(c: Config, s: State, a: Action)
    requires AllExplained(c, s)
    ensures AllExplained(c, Step(c, s, a))
  {
    if Enabled(c, s, a) {
      var s' := Do(c, s, a);
      forall p | p in s'.procs
        ensures Explained(c, s'.procs[p].pc)
      {
        if p in s.procs {
          IdKept(c, s, a, p);
        }
      }
    }
  }

  /** Over every run, refusals are those of the configuration: for lack of room only without
      a queue, and for a full queue only with one that is bounded. */
  lemma {:induction false} RefusalsExplained(c: Config, s: State, actions: seq<Action>)
    requires AllExplained(c, s)
    ensures AllExplained(c, Run(c, s, actions))
    decreases actions
  {
    if actions != [] {
      ExplainedStep(c, s, actions[0]);
      RefusalsExplained(c, Step(c, s, actions[0]), actions[1..]);
    }
  }

  /** Nobody is in the queue or on the way into it. */
  ghost predicate NobodyQueues(s: State) {
    && s.queue == map[] && s.order == []
    && forall p <- s.procs :: !s.procs[p].pc.ToEnqueue? && !InQueue(s.procs[p].pc)
  }

  lemma NobodyQueuesStep(c: Config, s: State, a: Action)
    requires c.maxQueue.Some? && NobodyQueues(s)
    ensures NobodyQueues(Step(c, s, a))
  {
    if Enabled(c, s, a) {
      var s' := Do(c, s, a);
      assert |s.queue| == 0;
      forall p | p in s'.procs
        ensures !s'.procs[p].pc.ToEnqueue? && !InQueue(s'.procs[p].pc)
      {
        if p in s.procs {
          IdKept(c, s, a, p);
        }
      }
    }
  }

  lemma {:induction false} NobodyQueuesRun(c: Config, s: State, actions: seq<Action>)
    requires c.maxQueue.Some? && NobodyQueues(s)
    ensures NobodyQueues(Run(c, s, actions))
    decreases actions
  {
    if actions != [] {
      NobodyQueuesStep(c, s, actions[0]);
      NobodyQueuesRun(c, Step(c, s, actions[0]), actions[1..]);
    }
  }

  /** The bound on the queue is tested the wrong way round: in every run with any bound at all,
      nobody is ever queued, and whoever comes to the queue is refused. */
  lemma AnyBoundRefusesAll(c: Config, actions: seq<Action>, p: nat)
    requires c.maxQueue.Some?
    ensures var s := Run(c, EMPTY, actions);
            && s.queue == map[]
            && (At(s, p, AtQueue) ==>
                  && !Enabled(c, s, Miss(p)) && !Enabled(c, s, JoinQueue(p))
                  && At(Step(c, s, QueueFull(p)), p, Returned(Err(MaxQueue))))
  {
    NobodyQueuesRun(c, EMPTY, actions);
    var s := Run(c, EMPTY, actions);
    assert |s.queue| == 0;
    if At(s, p, AtQueue) {
      QueueDecides(c, s, p);
    }
  }

  // ---------------------------------------------------------------------
  // One execution for an ID

  /** Every registered execution is the one stored under its ID. */
  ghost predicate Single(s: State) {
    forall p <- s.procs :: Registered(s.procs[p].pc) ==> s.procs[p].id in s.watchers && s.watchers[s.procs[p].id] == p
  }

  /** A call that registers an execution for an ID that has one. */
  predicate Doubles(s: State, a: Action) {
    a.Insert? && a.p in s.procs && s.procs[a.p].pc.Inserting? && s.procs[a.p].id in s.watchers
  }

  lemma SingleKept(c: Config, s: State, a: Action, p: nat)
    requires Single(s) && Enabled(c, s, a) && !Doubles(s, a) && p in Do(c, s, a).procs && Registered(Do(c, s, a).procs[p].pc)
    ensures var s' := Do(c, s, a); s'.procs[p].id in s'.watchers && s'.watchers[s'.procs[p].id] == p
  {
    if p in s.procs {
      IdKept(c, s, a, p);
    }
  }

  /** Exactly that breaks the promise that an ID runs once at a time. */
  lemma SingleExactly(c: Config, s: State, a: Action)
    requires WatchersOk(s) && Single(s) && Enabled(c, s, a)
    ensures Single(Do(c, s, a)) <==> !Doubles(s, a)
  {
    var s' := Do(c, s, a);
    if Doubles(s, a) {
      var q := s.watchers[s.procs[a.p].id];
      IdKept(c, s, a, q);
      assert s'.procs[q] == s.procs[q] && s'.watchers[s.procs[q].id] == a.p != q;
    } else {
      forall p | p in s'.procs && Registered(s'.procs[p].pc)
        ensures s'.procs[p].id in s'.watchers && s'.watchers[s'.procs[p].id] == p
      {
        SingleKept(c, s, a, p);
      }
    }
  }

  ghost predicate NoneDoubles(c: Config, s: State, actions: seq<Action>)
    decreases actions
  {
    actions == [] || (!Doubles(s, actions[0]) && NoneDoubles(c, Step(c, s, actions[0]), actions[1..]))
  }

  lemma {:induction false} SingleRun(c: Config, s: State, actions: seq<Action>)
    requires Inv(s) && Single(s) && NoneDoubles(c, s, actions)
    ensures Inv(Run(c, s, actions)) && Single(Run(c, s, actions))
    decreases actions
  {
    if actions != [] {
      InvStep(c, s, actions[0]);
      if Enabled(c, s, actions[0]) {
        SingleExactly(c, s, actions[0]);
      }
      SingleRun(c, Step(c, s, actions[0]), actions[1..]);
    }
  }

  /** In a run without such a registration, two calls that run their functions at the same time
      have different IDs. */
  lemma OneExecutionPerId(c: Config, actions: seq<Action>, p: nat, q: nat)
    requires NoneDoubles(c, EMPTY, actions)
    ensures var s := Run(c, EMPTY, actions);
            p in s.procs && q in s.procs && s.procs[p].pc.Running? && s.procs[q].pc.Running? && s.procs[p].id == s.procs[q].id
            ==> p == q
  {
    SingleRun(c, EMPTY, actions);
  }

  /** Without that, it can: two calls of one ID that both look before either registers. */
  lemma TwoCanRun(c: Config, id: Id)
    requires c.maxConcurrent != Some(0)
    ensures var s := Run(c, EMPTY, [Call(0, id), Call(1, id), Direct(0), Direct(1), Insert(0), Insert(1)]);
            At(s, 0, Running(false)) && At(s, 1, Running(false)) && s.procs[0].id == s.procs[1].id
  {
    var s2 := TwoCalled(c, id);
    var s4 := TwoAdmitted(c, id, s2);
    var s6 := TwoInserted(c, id, s4);
    RunPair(c, EMPTY, Call(0, id), Call(1, id), [Direct(0), Direct(1), Insert(0), Insert(1)]);
    RunPair(c, s2, Direct(0), Direct(1), [Insert(0), Insert(1)]);
    RunPair(c, s4, Insert(0), Insert(1), []);
  }

  lemma RunPair(c: Config, s: State, a: Action, b: Action, rest: seq<Action>)
    ensures Run(c, s, [a, b] + rest) == Run(c, Step(c, Step(c, s, a), b), rest)
  {
    assert ([a, b] + rest)[1..] == [b] + rest;
    assert ([b] + rest)[1..] == rest;
  }

  lemma TwoCalled(c: Config, id: Id) returns (s: State)
    ensures s == Step(c, Step(c, EMPTY, Call(0, id)), Call(1, id))
    ensures s == State(map[0 := Process(id, Start), 1 := Process(id, Start)], map[], map[], [], map[], map[])
  {
    s := Step(c, Step(c, EMPTY, Call(0, id)), Call(1, id));
  }

  lemma TwoAdmitted(c: Config, id: Id, s: State) returns (s': State)
    requires s == State(map[0 := Process(id, Start), 1 := Process(id, Start)], map[], map[], [], map[], map[])
    requires c.maxConcurrent != Some(0)
    ensures s' == Step(c, Step(c, s, Direct(0)), Direct(1))
    ensures s' == State(map[0 := Process(id, Inserting(false)), 1 := Process(id, Inserting(false))], map[], map[], [], map[], map[])
  {
    assert |s.watchers| == 0;
    s' := Step(c, Step(c, s, Direct(0)), Direct(1));
  }

  lemma TwoInserted(c: Config, id: Id, s: State) returns (s': State)
    requires s == State(map[0 := Process(id, Inserting(false)), 1 := Process(id, Inserting(false))], map[], map[], [], map[], map[])
    ensures s' == Step(c, Step(c, s, Insert(0)), Insert(1))
    ensures At(s', 0, Running(false)) && At(s', 1, Running(false)) && s'.procs[0].id == s'.procs[1].id
  {
    s' := Step(c, Step(c, s, Insert(0)), Insert(1));
  }

  // ---------------------------------------------------------------------
  // The limit

  predicate Within(c: Config, s: State) {
    c.maxConcurrent.Some? ==> |s.watchers| <= c.maxConcurrent.value
  }

  /** A call that registers a further execution when the limit is reached. */
  predicate Exceeds(c: Config, s: State, a: Action) {
    && a.Insert? && a.p in s.procs && s.procs[a.p].pc.Inserting? && s.procs[a.p].id !in s.watchers
    && c.maxConcurrent.Some? && |s.watchers| >= c.maxConcurrent.value
  }

  lemma DropSize(m: map<Id, nat>, id: Id)
    ensures |Drop(m, id)| <= |m|
  {
    assert Drop(m, id).Keys == m.Keys - {id};
  }

  lemma PutSize(m: map<Id, nat>, id: Id, p: nat)
    ensures |m[id := p]| == if id in m then |m| else |m| + 1
  {
    assert m[id := p].Keys == m.Keys + {id};
  }

  /** Exactly that passes the limit on registered executions: the room is looked at when a call
      begins or spins, and not again when it registers. */
  lemma LimitExactly(c: Config, s: State, a: Action)
    requires Within(c, s) && Enabled(c, s, a)
    ensures Within(c, Do(c, s, a)) <==> !Exceeds(c, s, a)
  {
    if a.Remove? {
      DropSize(s.watchers, s.procs[a.p].id);
    } else if a.Insert? {
      PutSize(s.watchers, s.procs[a.p].id, a.p);
    }
  }

  ghost predicate NoneExceeds(c: Config, s: State, actions: seq<Action>)
    decreases actions
  {
    actions == [] || (!Exceeds(c, s, actions[0]) && NoneExceeds(c, Step(c, s, actions[0]), actions[1..]))
  }

  lemma {:induction false} LimitKept(c: Config, s: State, actions: seq<Action>)
    requires Within(c, s) && NoneExceeds(c, s, actions)
    ensures Within(c, Run(c, s, actions))
    decreases actions
  {
    if actions != [] {
      if Enabled(c, s, actions[0]) {
        LimitExactly(c, s, actions[0]);
      }
      LimitKept(c, Step(c, s, actions[0]), actions[1..]);
    }
  }

  // ---------------------------------------------------------------------
  // Where values come from

  /** The function of call `q` ended in the run with this value. */
  ghost predicate EndedWith(actions: seq<Action>, q: nat, v: Value) {
    exists j :: 0 <= j < |actions| && actions[j] == Finish(q, v)
  }

  lemma {:induction false} MadeByFinish(c: Config, actions: seq<Action>, q: nat)
    ensures var s := Run(c, EMPTY, actions); q in s.made ==> EndedWith(actions, q, s.made[q])
  {
    if actions != [] {
      var init, a := actions[..|actions| - 1], actions[|actions| - 1];
      assert actions == init + [a];
      MadeByFinish(c, init, q);
      RunLast(c, EMPTY, init, a);
      var s := Run(c, EMPTY, init);
      if q in s.made {
        if EndedWith(init, q, s.made[q]) {
          var j :| 0 <= j < |init| && init[j] == Finish(q, s.made[q]);
          assert actions[j] == Finish(q, s.made[q]);
        }
      }
      assert actions[|actions| - 1] == a;
    }
  }

  lemma {:induction false} RunLast(c: Config, s: State, actions: seq<Action>, a: Action)
    ensures Run(c, s, actions + [a]) == Step(c, Run(c, s, actions), a)
    decreases actions
  {
    if actions == [] {
      assert [] + [a] == [a] && [a][1..] == [];
      assert Run(c, Step(c, s, a), []) == Step(c, s, a);
    } else {
      assert (actions + [a])[1..] == actions[1..] + [a];
      RunLast(c, Step(c, s, actions[0]), actions[1..], a);
    }
  }

  /** In every interleaving, a value that a call returns is the one with which the function of
      a call for the same ID ended. */
  lemma ReturnsAnEnd(c: Config, actions: seq<Action>, p: nat)
    ensures var s := Run(c, EMPTY, actions);
            p in s.procs && s.procs[p].pc.Returned? && s.procs[p].pc.answer.Ok? ==>
              exists q :: q in s.procs && s.procs[q].id == s.procs[p].id && EndedWith(actions, q, s.procs[p].pc.answer.value)
  {
    InvRun(c, EMPTY, actions);
    var s := Run(c, EMPTY, actions);
    if p in s.procs && s.procs[p].pc.Returned? && s.procs[p].pc.answer.Ok? {
      var v := s.procs[p].pc.answer.value;
      assert MadeFor(s, s.procs[p].id, v);
      var q :| q in s.made && q in s.procs && s.made[q] == v && s.procs[q].id == s.procs[p].id;
      MadeByFinish(c, actions, q);
    }
  }
}
