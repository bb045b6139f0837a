/** When every call of the coalescing service is answered: as long as no two calls
    enqueue the same ID at once, every fair schedule brings all calls to their return. */
module CoalesceProgress {
  import opened Entities
  import opened Coalesce

  // ---------------------------------------------------------------------
  // The queue without races

  ghost predicate OrderOk(s: State) {
    && (forall id :: id in s.order <==> id in s.queue)
    && (forall i, j :: 0 <= i < j < |s.order| ==> s.order[i] != s.order[j])
  }

  /** Every call in the admission loop is the one stored under its ID. */
  ghost predicate Solo(s: State) {
    forall p <- s.procs :: InQueue(s.procs[p].pc) ==> s.procs[p].id in s.queue && s.queue[s.procs[p].id] == p
  }

  /** A call that enqueues an ID which another call has just enqueued. */
  predicate Races(s: State, a: Action) {
    a.Enqueue? && a.p in s.procs && s.procs[a.p].pc.ToEnqueue? && s.procs[a.p].id in s.queue
  }

  lemma {:induction false} ShiftKeeps(order: seq<Id>, id: Id, x: Id)
    ensures x in Shift(order, id) <==> x in order && x != id
  {
    if order != [] {
      ShiftKeeps(order[1..], id, x);
      assert x in order <==> x == order[0] || x in order[1..];
    }
  }

  lemma {:induction false} ShiftDistinct(order: seq<Id>, id: Id)
    requires forall i, j :: 0 <= i < j < |order| ==> order[i] != order[j]
    ensures forall i, j :: 0 <= i < j < |Shift(order, id)| ==> Shift(order, id)[i] != Shift(order, id)[j]
  {
    if order != [] {
      var rest := Shift(order[1..], id);
      ShiftDistinct(order[1..], id);
      assert forall i :: 0 <= i < |rest| ==> rest[i] in rest;
      forall x | x in rest
        ensures x != order[0]
      {
        ShiftKeeps(order[1..], id, x);
      }
    }
  }

  lemma {:induction false} ShiftHead(order: seq<Id>)
    requires order != [] && forall i, j :: 0 <= i < j < |order| ==> order[i] != order[j]
    ensures Shift(order, order[0]) == order[1..]
  {
    ShiftAbsent(order[1..], order[0]);
  }

  lemma {:induction false} ShiftAbsent(order: seq<Id>, id: Id)
    requires id !in order
    ensures Shift(order, id) == order
  {
    if order != [] {
      ShiftAbsent(order[1..], id);
    }
  }

  lemma OrderStep(c: Config, s: State, a: Action)
    requires OrderOk(s)
    ensures OrderOk(Step(c, s, a))
  {
    if Enabled(c, s, a) && a.Dequeue? {
      var id := s.procs[a.p].id;
      ShiftDistinct(s.order, id);
      forall x
        ensures x in Shift(s.order, id) <==> x in Drop(s.queue, id)
      {
        ShiftKeeps(s.order, id, x);
      }
    } else if Enabled(c, s, a) && a.Enqueue? {
      EnqueueOrder(s, s.procs[a.p].id, a.p);
    }
  }

  lemma EnqueueOrder(s: State, id: Id, p: nat)
    requires OrderOk(s)
    ensures OrderOk(s.(queue := s.queue[id := p], order := Placed(s, id)))
  {
  }

  lemma SoloProcess(c: Config, s: State, a: Action, p: nat)
    requires QueueOk(s) && Solo(s) && Enabled(c, s, a) && !Races(s, a)
    requires p in Do(c, s, a).procs && InQueue(Do(c, s, a).procs[p].pc)
    ensures var s' := Do(c, s, a); s'.procs[p].id in s'.queue && s'.queue[s'.procs[p].id] == p
  {
    if p in s.procs {
      IdKept(c, s, a, p);
    }
  }

  /** Exactly the race breaks the queue's one-call-per-ID discipline. */
  lemma SoloExactly(c: Config, s: State, a: Action)
    requires QueueOk(s) && Solo(s) && Enabled(c, s, a)
    ensures Solo(Do(c, s, a)) <==> !Races(s, a)
  {
    var s' := Do(c, s, a);
    if Races(s, a) {
      var q := s.queue[s.procs[a.p].id];
      IdKept(c, s, a, q);
      assert s'.procs[q] == s.procs[q] && s'.queue[s.procs[q].id] == a.p != q;
    } else {
      forall p | p in s'.procs && InQueue(s'.procs[p].pc)
        ensures s'.procs[p].id in s'.queue && s'.queue[s'.procs[p].id] == p
      {
        SoloProcess(c, s, a, p);
      }
    }
  }

  ghost predicate Calm(s: State) {
    Inv(s) && OrderOk(s) && Solo(s)
  }

  lemma CalmStep(c: Config, s: State, a: Action)
    requires Calm(s) && !Races(s, a)
    ensures Calm(Step(c, s, a))
  {
    InvStep(c, s, a);
    OrderStep(c, s, a);
    if Enabled(c, s, a) {
      SoloExactly(c, s, a);
    }
  }

  // ---------------------------------------------------------------------
  // First in, first out

  /** A call that has seen its ID at the front still has it there. */
  ghost predicate HeadOk(s: State) {
    forall p <- s.procs :: s.procs[p].pc.ToDequeue? ==> Leads(s, s.procs[p].id)
  }

  lemma HeadStep(c: Config, s: State, a: Action)
    requires Calm(s) && HeadOk(s) && !Races(s, a)
    ensures HeadOk(Step(c, s, a))
  {
    if Enabled(c, s, a) {
      var s' := Do(c, s, a);
      forall p | p in s'.procs && s'.procs[p].pc.ToDequeue?
        ensures Leads(s', s'.procs[p].id)
      {
        HeadProcess(c, s, a, p);
      }
    }
  }

  lemma HeadProcess(c: Config, s: State, a: Action, p: nat)
    requires Calm(s) && HeadOk(s) && !Races(s, a) && Enabled(c, s, a)
    requires p in Do(c, s, a).procs && Do(c, s, a).procs[p].pc.ToDequeue?
    ensures Leads(Do(c, s, a), Do(c, s, a).procs[p].id)
  {
    if a.p == p {
      assert a.SeeFirst?;
    } else {
      IdKept(c, s, a, p);
      if a.Dequeue? {
        OnlyOneLeads(s, p, a);
        assert false;
      }
      HeadStays(c, s, a, s.procs[p].id);
    }
  }

  /** Two calls at the front would have the same ID, and so be the same call. */
  lemma OnlyOneLeads(s: State, p: nat, a: Action)
    requires Solo(s) && HeadOk(s) && p in s.procs && s.procs[p].pc.ToDequeue?
    requires a.p in s.procs && s.procs[a.p].pc.ToDequeue?
    ensures a.p == p
  {
  }

  lemma HeadStays(c: Config, s: State, a: Action, id: Id)
    requires Enabled(c, s, a) && Leads(s, id) && !a.Dequeue?
    ensures Leads(Do(c, s, a), id)
  {
  }

  /** The queue is served in the order in which the IDs came in: a call that leaves it
      takes the front off and nothing else. */
  lemma ServedInOrder(c: Config, s: State, p: nat)
    requires Calm(s) && HeadOk(s) && Enabled(c, s, Dequeue(p))
    ensures s.order != [] && s.order[0] == s.procs[p].id
    ensures Do(c, s, Dequeue(p)).order == s.order[1..]
  {
    ShiftHead(s.order);
  }

  // ---------------------------------------------------------------------
  // One call's turn

  /** How far a call is from its return; the two places of the admission loop are alike. */
  function Weight(pc: Pc): nat {
    match pc
    case Start => 13
    case AtQueue => 12
    case ToEnqueue => 11
    case Spinning => 10
    case SpinCheck => 10
    case ToDequeue => 9
    case Inserting(_) => 8
    case Running(_) => 7
    case Finished(_) => 6
    case Sent(_) => 5
    case Replying => 4
    case Waiting(_) => 3
    case Returned(_) => 0
  }

  /** The call can take a step whatever the others do. */
  predicate Busy(pc: Pc) {
    !pc.ToEnqueue? && !pc.Spinning? && !pc.SpinCheck? && !pc.Waiting? && !pc.Returned?
  }

  predicate AllReturned(s: State) {
    forall p <- s.procs :: s.procs[p].pc.Returned?
  }

  /** The call's next turn brings it closer to its return. */
  predicate Ready(s: State, p: nat)
    requires p in s.procs
  {
    var pr := s.procs[p];
    || Busy(pr.pc)
    || (pr.pc.ToEnqueue? && pr.id !in s.queue)
    || (pr.pc.SpinCheck? && Leads(s, pr.id))
    || (pr.pc.Waiting? && pr.pc.channel in s.sent)
  }

  function BusyStep(c: Config, s: State, p: nat, values: nat -> Value): Action
    requires p in s.procs && Busy(s.procs[p].pc)
  {
    var id := s.procs[p].id;
    match s.procs[p].pc
    case Start =>
      if id in s.watchers then Join(p)
      else if !Saturated(c, s) then Direct(p)
      else if c.queueRequests then Full(p) else Refuse(p)
    case AtQueue => if id in s.queue then JoinQueue(p) else if Barred(c, s) then QueueFull(p) else Miss(p)
    case ToDequeue => Dequeue(p)
    case Inserting(_) => Insert(p)
    case Running(_) => Finish(p, values(p))
    case Finished(_) => Send(p)
    case Sent(_) => Remove(p)
    case Replying => Reply(p)
  }

  /** What a call does at its turn, if anything: each call has at most one step it can
      take. A call that would race is held back. */
  function Move(c: Config, s: State, p: nat, values: nat -> Value): Option<Action>
    requires p in s.procs
  {
    var pr := s.procs[p];
    if Busy(pr.pc) then Some(BusyStep(c, s, p, values))
    else if pr.pc.ToEnqueue? then if pr.id in s.queue then None else Some(Enqueue(p))
    else if pr.pc.Spinning? then if Saturated(c, s) then None else Some(SeeRoom(p))
    else if pr.pc.SpinCheck? then if Leads(s, pr.id) then Some(SeeFirst(p)) else Some(SeeOther(p))
    else if pr.pc.Waiting? && pr.pc.channel in s.sent then Some(Wake(p))
    else None
  }

  /** A step that is possible, starts no call and is no race. */
  predicate Decent(c: Config, s: State, a: Action) {
    Enabled(c, s, a) && !a.Call? && !Races(s, a)
  }

  lemma BusyMoves(c: Config, s: State, p: nat, values: nat -> Value)
    requires p in s.procs && ProcessOk(s, p) && Busy(s.procs[p].pc)
    ensures var a := BusyStep(c, s, p, values);
            a.p == p && Decent(c, s, a) && Weight(Next(c, s, a)) < Weight(s.procs[p].pc)
  {
  }

  lemma QueueMoves(c: Config, s: State, p: nat, values: nat -> Value)
    requires p in s.procs && !Busy(s.procs[p].pc) && Move(c, s, p, values).Some?
    ensures var a := Move(c, s, p, values).value;
            && a.p == p && Decent(c, s, a)
            && (Ready(s, p) ==> Weight(Next(c, s, a)) < Weight(s.procs[p].pc))
            && (!Ready(s, p) ==> (a.SeeRoom? || a.SeeOther?) && Weight(Next(c, s, a)) == Weight(s.procs[p].pc))
  {
  }

  lemma MoveOk(c: Config, s: State, p: nat, values: nat -> Value)
    requires Inv(s) && p in s.procs
    ensures Ready(s, p) ==> Move(c, s, p, values).Some?
    ensures Move(c, s, p, values).Some? ==>
              var a := Move(c, s, p, values).value;
              && a.p == p && Decent(c, s, a)
              && (Ready(s, p) ==> Weight(Next(c, s, a)) < Weight(s.procs[p].pc))
              && (!Ready(s, p) ==> (a.SeeRoom? || a.SeeOther?) && Weight(Next(c, s, a)) == Weight(s.procs[p].pc))
  {
    assert ProcessOk(s, p);
    if Busy(s.procs[p].pc) {
      BusyMoves(c, s, p, values);
    } else if Move(c, s, p, values).Some? {
      QueueMoves(c, s, p, values);
    }
  }

  function Go(c: Config, s: State, p: nat, values: nat -> Value): State {
    if p in s.procs && Move(c, s, p, values).Some? then Step(c, s, Move(c, s, p, values).value) else s
  }

  /** The turns of a list of calls, one after the other. */
  function RunTurns(c: Config, s: State, pids: seq<nat>, values: nat -> Value): State
    decreases pids
  {
    if pids == [] then s else RunTurns(c, Go(c, s, pids[0], values), pids[1..], values)
  }

  /** No step of the run is a race. */
  ghost predicate Polite(c: Config, s: State, actions: seq<Action>)
    decreases actions
  {
    actions == [] || (!Races(s, actions[0]) && Polite(c, Step(c, s, actions[0]), actions[1..]))
  }

  /** Turns are steps of the service, without races. */
  lemma {:induction false} TurnsAreSteps(c: Config, s: State, pids: seq<nat>, values: nat -> Value)
    returns (actions: seq<Action>)
    requires Inv(s)
    ensures Run(c, s, actions) == RunTurns(c, s, pids, values) && Polite(c, s, actions)
    decreases pids
  {
    actions := [];
    if pids != [] {
      var p := pids[0];
      if p in s.procs && Move(c, s, p, values).Some? {
        var a := Move(c, s, p, values).value;
        MoveOk(c, s, p, values);
        InvStep(c, s, a);
        var rest := TurnsAreSteps(c, Step(c, s, a), pids[1..], values);
        actions := [a] + rest;
        assert actions[1..] == rest;
      } else {
        actions := TurnsAreSteps(c, s, pids[1..], values);
      }
    }
  }

  lemma GoCalm(c: Config, s: State, p: nat, values: nat -> Value)
    requires Calm(s)
    ensures Calm(Go(c, s, p, values)) && Go(c, s, p, values).procs.Keys == s.procs.Keys
  {
    if p in s.procs && Move(c, s, p, values).Some? {
      MoveOk(c, s, p, values);
      CalmStep(c, s, Move(c, s, p, values).value);
    }
  }

  // ---------------------------------------------------------------------
  // The total distance never grows

  function Total(procs: map<nat, Process>, n: nat): nat {
    if n == 0 then 0
    else Total(procs, n - 1) + if n - 1 in procs then Weight(procs[n - 1].pc) else 0
  }

  lemma {:induction false} TotalChange(procs: map<nat, Process>, n: nat, p: nat, pr: Process)
    requires p in procs
    ensures p < n ==> Total(procs[p := pr], n) == Total(procs, n) + Weight(pr.pc) - Weight(procs[p].pc)
    ensures p >= n ==> Total(procs[p := pr], n) == Total(procs, n)
  {
    if n > 0 {
      TotalChange(procs, n - 1, p, pr);
    }
  }

  ghost predicate Below(s: State, n: nat) {
    forall p <- s.procs :: p < n
  }

  lemma GoWeight(c: Config, s: State, p: nat, values: nat -> Value, n: nat)
    requires Inv(s) && Below(s, n)
    ensures Total(Go(c, s, p, values).procs, n) <= Total(s.procs, n)
    ensures p in s.procs && Ready(s, p) ==> Total(Go(c, s, p, values).procs, n) < Total(s.procs, n)
  {
    if p in s.procs && Move(c, s, p, values).Some? {
      MoveOk(c, s, p, values);
      var a := Move(c, s, p, values).value;
      assert Go(c, s, p, values).procs == s.procs[p := Process(s.procs[p].id, Next(c, s, a))];
      TotalChange(s.procs, n, p, Process(s.procs[p].id, Next(c, s, a)));
    } else if p in s.procs {
      MoveOk(c, s, p, values);
    }
  }

  lemma {:induction false} TurnsWeight(c: Config, s: State, pids: seq<nat>, values: nat -> Value, n: nat)
    requires Calm(s) && Below(s, n)
    ensures var s' := RunTurns(c, s, pids, values);
            Calm(s') && s'.procs.Keys == s.procs.Keys && Total(s'.procs, n) <= Total(s.procs, n)
    decreases pids
  {
    if pids != [] {
      GoCalm(c, s, pids[0], values);
      GoWeight(c, s, pids[0], values, n);
      TurnsWeight(c, Go(c, s, pids[0], values), pids[1..], values, n);
    }
  }

  // ---------------------------------------------------------------------
  // In two rounds somebody gets closer

  /** The call spins at the front of the queue and nothing is registered. */
  predicate AtFront(s: State, h: nat) {
    h in s.procs && s.procs[h].pc.Spinning? && Leads(s, s.procs[h].id) && s.watchers == map[]
  }

  /** A turn that brings nobody closer leaves the others as they were. */
  lemma IdleTurn(c: Config, s: State, q: nat, values: nat -> Value, p: nat)
    requires Inv(s) && p in s.procs && p != q && (q in s.procs ==> !Ready(s, q))
    ensures p in Go(c, s, q, values).procs
    ensures Ready(s, p) ==> Ready(Go(c, s, q, values), p)
    ensures AtFront(s, p) ==> AtFront(Go(c, s, q, values), p)
  {
    if q in s.procs && Move(c, s, q, values).Some? {
      MoveOk(c, s, q, values);
      IdKept(c, s, Move(c, s, q, values).value, p);
    }
  }

  lemma {:induction false} ReadyAdvances(c: Config, s: State, pids: seq<nat>, values: nat -> Value, n: nat, p: nat)
    requires Calm(s) && Below(s, n) && p in s.procs && Ready(s, p)
    ensures var s' := RunTurns(c, s, pids, values);
            || Total(s'.procs, n) < Total(s.procs, n)
            || (p !in pids && p in s'.procs && Ready(s', p))
    decreases pids
  {
    if pids != [] {
      var q := pids[0];
      var s1 := Go(c, s, q, values);
      GoCalm(c, s, q, values);
      GoWeight(c, s, q, values, n);
      TurnsWeight(c, s1, pids[1..], values, n);
      if !(q in s.procs && Ready(s, q)) {
        IdleTurn(c, s, q, values, p);
        ReadyAdvances(c, s1, pids[1..], values, n, p);
      }
    }
  }

  lemma FrontGoes(c: Config, s: State, h: nat, values: nat -> Value)
    requires AtFront(s, h) && c.maxConcurrent != Some(0)
    ensures h in Go(c, s, h, values).procs && Ready(Go(c, s, h, values), h)
  {
  }

  lemma {:induction false} FrontAdvances(c: Config, s: State, pids: seq<nat>, values: nat -> Value, n: nat, h: nat)
    requires Calm(s) && Below(s, n) && AtFront(s, h) && c.maxConcurrent != Some(0) && h in pids
    ensures var s' := RunTurns(c, s, pids, values);
            Total(s'.procs, n) < Total(s.procs, n) || (h in s'.procs && Ready(s', h))
    decreases pids
  {
    var q := pids[0];
    var s1 := Go(c, s, q, values);
    GoCalm(c, s, q, values);
    GoWeight(c, s, q, values, n);
    TurnsWeight(c, s1, pids[1..], values, n);
    if q == h {
      FrontGoes(c, s, h, values);
      ReadyAdvances(c, s1, pids[1..], values, n, h);
    } else if !(q in s.procs && Ready(s, q)) {
      IdleTurn(c, s, q, values, h);
      FrontAdvances(c, s1, pids[1..], values, n, h);
    }
  }

  ghost predicate NoneBusy(s: State) {
    forall p <- s.procs :: !Busy(s.procs[p].pc)
  }

  lemma NobodyRegistered(s: State)
    requires Inv(s) && NoneBusy(s)
    ensures s.watchers == map[]
  {
    if id :| id in s.watchers {
      assert false;
    }
  }

  lemma FrontSpins(s: State) returns (h: nat)
    requires Calm(s) && NoneBusy(s) && s.queue != map[]
    ensures h in s.procs && (AtFront(s, h) || Ready(s, h))
  {
    var id :| id in s.queue;
    assert id in s.order;
    assert s.order[0] in s.queue;
    h := s.queue[s.order[0]];
    NobodyRegistered(s);
  }

  /** With nobody busy and nothing to wake, a waiting call waits for one in the queue. */
  lemma WaitsForQueue(s: State, p: nat)
    requires Calm(s) && NoneBusy(s) && p in s.procs && s.procs[p].pc.Waiting? && s.procs[p].pc.channel !in s.sent
    ensures s.queue != map[]
  {
    assert ProcessOk(s, p);
    var q := s.procs[p].pc.channel.owner;
    assert !Busy(s.procs[q].pc);
    assert s.procs[q].id in s.queue;
  }

  lemma BlockedByQueue(s: State, p: nat)
    requires Calm(s) && NoneBusy(s) && p in s.procs && !Ready(s, p) && !s.procs[p].pc.Returned?
    ensures s.queue != map[]
  {
    if s.procs[p].pc.Waiting? {
      WaitsForQueue(s, p);
    } else {
      assert s.procs[p].id in s.queue;
    }
  }

  /** Unless all have returned, somebody is ready or spins at the front. */
  lemma SomebodyCan(s: State) returns (p: nat)
    requires Calm(s) && !AllReturned(s)
    ensures p in s.procs && (Ready(s, p) || AtFront(s, p))
  {
    if q :| q in s.procs && Busy(s.procs[q].pc) {
      return q;
    }
    p :| p in s.procs && !s.procs[p].pc.Returned?;
    if !Ready(s, p) {
      BlockedByQueue(s, p);
      p := FrontSpins(s);
    }
  }

  /** Everybody gets a turn. */
  predicate Round(s: State, pids: seq<nat>) {
    forall p <- s.procs :: p in pids
  }

  lemma TwoRounds(c: Config, s: State, first: seq<nat>, second: seq<nat>, values: nat -> Value, n: nat)
    requires Calm(s) && Below(s, n) && !AllReturned(s) && c.maxConcurrent != Some(0)
    requires Round(s, first) && Round(s, second)
    ensures Total(RunTurns(c, RunTurns(c, s, first, values), second, values).procs, n) < Total(s.procs, n)
  {
    var p := SomebodyCan(s);
    var s1 := RunTurns(c, s, first, values);
    TurnsWeight(c, s, first, values, n);
    TurnsWeight(c, s1, second, values, n);
    if Ready(s, p) {
      ReadyAdvances(c, s, first, values, n, p);
    } else {
      FrontAdvances(c, s, first, values, n, p);
      if Total(s1.procs, n) >= Total(s.procs, n) {
        ReadyAdvances(c, s1, second, values, n, p);
      }
    }
  }

  function RunRounds(c: Config, s: State, rounds: seq<seq<nat>>, values: nat -> Value): State
    decreases rounds
  {
    if rounds == [] then s else RunRounds(c, RunTurns(c, s, rounds[0], values), rounds[1..], values)
  }

  lemma {:induction false} ReturnedStay(c: Config, s: State, pids: seq<nat>, values: nat -> Value)
    requires AllReturned(s)
    ensures RunTurns(c, s, pids, values) == s
    decreases pids
  {
    if pids != [] {
      assert Go(c, s, pids[0], values) == s;
      ReturnedStay(c, s, pids[1..], values);
    }
  }

  lemma {:induction false} RoundsStay(c: Config, s: State, rounds: seq<seq<nat>>, values: nat -> Value)
    requires AllReturned(s)
    ensures RunRounds(c, s, rounds, values) == s
    decreases rounds
  {
    if rounds != [] {
      ReturnedStay(c, s, rounds[0], values);
      RoundsStay(c, s, rounds[1..], values);
    }
  }

  /** Every fair schedule brings all calls to their return: from a calm state, with races
      held back and no further calls, twice as many rounds as the total distance are
      enough, whatever the order within each round. */
  lemma {:induction false} FairReturn(c: Config, s: State, rounds: seq<seq<nat>>, values: nat -> Value, n: nat)
    requires Calm(s) && Below(s, n) && c.maxConcurrent != Some(0)
    requires forall r <- rounds :: Round(s, r)
    requires |rounds| >= 2 * Total(s.procs, n)
    ensures AllReturned(RunRounds(c, s, rounds, values)) && Inv(RunRounds(c, s, rounds, values))
    decreases rounds
  {
    if AllReturned(s) {
      RoundsStay(c, s, rounds, values);
    } else {
      TotalPositive(s, n);
      var s1 := RunTurns(c, s, rounds[0], values);
      var s2 := RunTurns(c, s1, rounds[1], values);
      TurnsWeight(c, s, rounds[0], values, n);
      TurnsWeight(c, s1, rounds[1], values, n);
      TwoRounds(c, s, rounds[0], rounds[1], values, n);
      var rest := rounds[1..][1..];
      assert RunRounds(c, s, rounds, values) == RunRounds(c, s2, rest, values);
      forall r | r in rest
        ensures Round(s2, r)
      {
        assert r in rounds;
      }
      FairReturn(c, s2, rest, values, n);
    }
  }

  lemma {:induction false} TotalAtLeast(procs: map<nat, Process>, n: nat, p: nat)
    requires p in procs && p < n
    ensures Total(procs, n) >= Weight(procs[p].pc)
  {
    if p < n - 1 {
      TotalAtLeast(procs, n - 1, p);
    }
  }

  lemma TotalPositive(s: State, n: nat)
    requires Below(s, n) && !AllReturned(s)
    ensures Total(s.procs, n) > 0
  {
    var p :| p in s.procs && !s.procs[p].pc.Returned?;
    TotalAtLeast(s.procs, n, p);
  }

  lemma {:induction false} CalmRun(c: Config, s: State, actions: seq<Action>)
    requires Calm(s) && HeadOk(s) && Polite(c, s, actions)
    ensures Calm(Run(c, s, actions)) && HeadOk(Run(c, s, actions))
    decreases actions
  {
    if actions != [] {
      CalmStep(c, s, actions[0]);
      HeadStep(c, s, actions[0]);
      CalmRun(c, Step(c, s, actions[0]), actions[1..]);
    }
  }

  /** After any run without races, fair rounds without races bring every call to its
      return, if at least one execution is allowed. */
  lemma FairSchedulesReturn(c: Config, actions: seq<Action>, rounds: seq<seq<nat>>, values: nat -> Value, n: nat)
    requires c.maxConcurrent != Some(0) && Polite(c, EMPTY, actions)
    requires var s := Run(c, EMPTY, actions);
             Below(s, n) && (forall r <- rounds :: Round(s, r)) && |rounds| >= 2 * Total(s.procs, n)
    ensures AllReturned(RunRounds(c, Run(c, EMPTY, actions), rounds, values))
  {
    CalmRun(c, EMPTY, actions);
    FairReturn(c, Run(c, EMPTY, actions), rounds, values, n);
  }

  // ---------------------------------------------------------------------
  // An execution always ends after its own steps

  /** The call has left the queue, or never was in it, and runs its function. */
  predicate Working(pc: Pc) {
    pc.Inserting? || pc.Running? || pc.Finished? || pc.Sent? || pc.Replying? || pc.Returned?
  }

  /** How many steps of the run are steps of the call. */
  ghost function Turns(c: Config, s: State, actions: seq<Action>, q: nat): nat
    decreases actions
  {
    if actions == [] then 0
    else
      (if Enabled(c, s, actions[0]) && actions[0].p == q then 1 else 0)
      + Turns(c, Step(c, s, actions[0]), actions[1..], q)
  }

  lemma WorkingStep(c: Config, s: State, a: Action, q: nat)
    requires Enabled(c, s, a) && q in s.procs && Working(s.procs[q].pc)
    ensures q in Do(c, s, a).procs && Working(Do(c, s, a).procs[q].pc)
    ensures a.p == q ==> Weight(Do(c, s, a).procs[q].pc) < Weight(s.procs[q].pc)
    ensures a.p != q ==> Do(c, s, a).procs[q] == s.procs[q]
  {
  }

  /** A working call has returned after its own remaining steps, whatever the others do,
      races included. */
  lemma {:induction false} WorkingReturns(c: Config, s: State, actions: seq<Action>, q: nat)
    requires q in s.procs && Working(s.procs[q].pc) && Turns(c, s, actions, q) >= Weight(s.procs[q].pc)
    ensures var s' := Run(c, s, actions); q in s'.procs && s'.procs[q].pc.Returned?
    decreases actions
  {
    if actions == [] {
    } else {
      if Enabled(c, s, actions[0]) {
        WorkingStep(c, s, actions[0], q);
      }
      WorkingReturns(c, Step(c, s, actions[0]), actions[1..], q);
    }
  }

  /** Whoever joined an execution is answered after at most seven steps of that execution,
      in any schedule. */
  lemma ExecutionJoinerAnswered(c: Config, s: State, actions: seq<Action>, p: nat, q: nat)
    requires Inv(s) && At(s, p, Waiting(Watch(q))) && Turns(c, s, actions, q) >= 7
    ensures var s' := Run(c, s, actions);
            q in s'.made && At(Step(c, s', Wake(p)), p, Returned(Ok(s'.made[q])))
  {
    assert ProcessOk(s, p);
    assert q in s.procs && Working(s.procs[q].pc) && Weight(s.procs[q].pc) <= 7;
    WorkingReturns(c, s, actions, q);
    JoinerAnswered(c, s, actions, p, Watch(q));
  }
}
