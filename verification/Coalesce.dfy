/** Request coalescing as a state machine over its lock acquisitions: every call of
    `execute` is a process, and the steps of different calls interleave freely. */
module Coalesce {
  import opened Entities

  type Value = string

  datatype Config = Config(maxConcurrent: Option<nat>, queueRequests: bool, maxQueue: Option<nat>)

  datatype Error = MaxConcurrent | MaxQueue

  datatype Answer = Ok(value: Value) | Err(error: Error)

  /** The channel a call makes for its execution, and the one it makes for its place in
      the queue; channels are named after the call. */
  datatype Channel = Watch(owner: nat) | Queue(owner: nat)

  /** Where a call stands; `queued` says whether it came through the queue. */
  datatype Pc =
    | Start
    | AtQueue
    | ToEnqueue
    | Spinning
    | SpinCheck
    | ToDequeue
    | Inserting(queued: bool)
    | Running(queued: bool)
    | Finished(queued: bool)
    | Sent(queued: bool)
    | Replying
    | Waiting(channel: Channel)
    | Returned(answer: Answer)

  datatype Process = Process(id: Id, pc: Pc)

  /** The calls, the two shared maps (the queue also keeps its keys in order), what
      each channel carries, and what each call's function produced. */
  datatype State = State(
    procs: map<nat, Process>, watchers: map<Id, nat>, queue: map<Id, nat>, order: seq<Id>,
    sent: map<Channel, Value>, made: map<nat, Value>)

  const EMPTY := State(map[], map[], map[], [], map[], map[])

  datatype Action =
    | Call(p: nat, id: Id)
    | Join(p: nat)
    | Direct(p: nat)
    | Full(p: nat)
    | Refuse(p: nat)
    | JoinQueue(p: nat)
    | QueueFull(p: nat)
    | Miss(p: nat)
    | Enqueue(p: nat)
    | SeeRoom(p: nat)
    | SeeFirst(p: nat)
    | SeeOther(p: nat)
    | Dequeue(p: nat)
    | Insert(p: nat)
    | Finish(p: nat, value: Value)
    | Send(p: nat)
    | Remove(p: nat)
    | Reply(p: nat)
    | Wake(p: nat)

  predicate At(s: State, p: nat, pc: Pc) {
    p in s.procs && s.procs[p].pc == pc
  }

  /** As many executions as allowed are registered. */
  predicate Saturated(c: Config, s: State) {
    c.maxConcurrent.Some? && |s.watchers| >= c.maxConcurrent.value
  }

  /** The queue bound as the program tests it. */
  predicate Barred(c: Config, s: State) {
    c.maxQueue.Some? && c.maxQueue.value >= |s.queue|
  }

  predicate Leads(s: State, id: Id) {
    s.order != [] && s.order[0] == id
  }

  predicate Enabled(c: Config, s: State, a: Action) {
    if a.Call? then a.p !in s.procs else
    a.p in s.procs &&
    var id, pc := s.procs[a.p].id, s.procs[a.p].pc;
    match a
    case Call(p, _) => true
    case Join(p) => pc.Start? && id in s.watchers
    case Direct(p) => pc.Start? && id !in s.watchers && !Saturated(c, s)
    case Full(p) => pc.Start? && id !in s.watchers && Saturated(c, s) && c.queueRequests
    case Refuse(p) => pc.Start? && id !in s.watchers && Saturated(c, s) && !c.queueRequests
    case JoinQueue(p) => pc.AtQueue? && id in s.queue
    case QueueFull(p) => pc.AtQueue? && id !in s.queue && Barred(c, s)
    case Miss(p) => pc.AtQueue? && id !in s.queue && !Barred(c, s)
    case Enqueue(p) => pc.ToEnqueue?
    case SeeRoom(p) => pc.Spinning? && !Saturated(c, s)
    case SeeFirst(p) => pc.SpinCheck? && Leads(s, id)
    case SeeOther(p) => pc.SpinCheck? && !Leads(s, id)
    case Dequeue(p) => pc.ToDequeue?
    case Insert(p) => pc.Inserting?
    case Finish(p, v) => pc.Running?
    case Send(p) => pc.Finished? && p in s.made
    case Remove(p) => pc.Sent? && p in s.made
    case Reply(p) => pc.Replying? && p in s.made
    case Wake(p) => pc.Waiting? && pc.channel in s.sent
  }

  function Drop(m: map<Id, nat>, id: Id): map<Id, nat> {
    map i <- m | i != id :: m[i]
  }

  /** The keys in order without `id`, as an index map shifts them. */
  function Shift(order: seq<Id>, id: Id): seq<Id> {
    if order == [] then []
    else (if order[0] == id then [] else [order[0]]) + Shift(order[1..], id)
  }

  /** Inserting an existing key replaces its receiver and keeps its place. */
  function Placed(s: State, id: Id): seq<Id> {
    if id in s.queue then s.order else s.order + [id]
  }

  /** The ID of the call that takes the step. */
  function Subject(c: Config, s: State, a: Action): Id
    requires Enabled(c, s, a)
  {
    if a.Call? then a.id else s.procs[a.p].id
  }

  /** Where the step takes its call. */
  function Next(c: Config, s: State, a: Action): Pc
    requires Enabled(c, s, a)
  {
    match a
    case Call(p, id) => Start
    case Join(p) => Waiting(Watch(s.watchers[s.procs[p].id]))
    case Direct(p) => Inserting(false)
    case Full(p) => AtQueue
    case Refuse(p) => Returned(Err(MaxConcurrent))
    case JoinQueue(p) => Waiting(Queue(s.queue[s.procs[p].id]))
    case QueueFull(p) => Returned(Err(MaxQueue))
    case Miss(p) => ToEnqueue
    case Enqueue(p) => Spinning
    case SeeRoom(p) => SpinCheck
    case SeeFirst(p) => ToDequeue
    case SeeOther(p) => Spinning
    case Dequeue(p) => Inserting(true)
    case Insert(p) => Running(s.procs[p].pc.queued)
    case Finish(p, v) => Finished(s.procs[p].pc.queued)
    case Send(p) => Sent(s.procs[p].pc.queued)
    case Remove(p) => if s.procs[p].pc.queued then Replying else Returned(Ok(s.made[p]))
    case Reply(p) => Returned(Ok(s.made[p]))
    case Wake(p) => Returned(Ok(s.sent[s.procs[p].pc.channel]))
  }

  function Watchers(c: Config, s: State, a: Action): map<Id, nat>
    requires Enabled(c, s, a)
  {
    if a.Insert? then s.watchers[s.procs[a.p].id := a.p]
    else if a.Remove? then Drop(s.watchers, s.procs[a.p].id)
    else s.watchers
  }

  function Queued(c: Config, s: State, a: Action): map<Id, nat>
    requires Enabled(c, s, a)
  {
    if a.Enqueue? then s.queue[s.procs[a.p].id := a.p]
    else if a.Dequeue? then Drop(s.queue, s.procs[a.p].id)
    else s.queue
  }

  function Order(c: Config, s: State, a: Action): seq<Id>
    requires Enabled(c, s, a)
  {
    if a.Enqueue? then Placed(s, s.procs[a.p].id)
    else if a.Dequeue? then Shift(s.order, s.procs[a.p].id)
    else s.order
  }

  function Channels(c: Config, s: State, a: Action): map<Channel, Value>
    requires Enabled(c, s, a)
  {
    if a.Send? then s.sent[Watch(a.p) := s.made[a.p]]
    else if a.Reply? then s.sent[Queue(a.p) := s.made[a.p]]
    else s.sent
  }

  function Made(c: Config, s: State, a: Action): map<nat, Value>
    requires Enabled(c, s, a)
  {
    if a.Finish? then s.made[a.p := a.value] else s.made
  }

  function Do(c: Config, s: State, a: Action): State
    requires Enabled(c, s, a)
  {
    State(s.procs[a.p := Process(Subject(c, s, a), Next(c, s, a))], Watchers(c, s, a), Queued(c, s, a), Order(c, s, a),
          Channels(c, s, a), Made(c, s, a))
  }

  function Step(c: Config, s: State, a: Action): State {
    if Enabled(c, s, a) then Do(c, s, a) else s
  }

  /** Any interleaving. */
  function Run(c: Config, s: State, actions: seq<Action>): State
    decreases actions
  {
    if actions == [] then s else Run(c, Step(c, s, actions[0]), actions[1..])
  }

  // ---------------------------------------------------------------------
  // What every interleaving keeps

  /** The call has registered its execution and has not removed it yet. */
  predicate Registered(pc: Pc) {
    pc.Running? || pc.Finished? || pc.Sent?
  }

  /** The call is in the admission loop. */
  predicate InQueue(pc: Pc) {
    pc.Spinning? || pc.SpinCheck? || pc.ToDequeue?
  }

  /** The call's function has produced its value. */
  predicate Produced(pc: Pc) {
    pc.Finished? || pc.Sent? || pc.Replying?
  }

  /** The call came through the queue and has not answered its queue channel yet. */
  predicate OwesReply(pc: Pc) {
    || InQueue(pc) || pc.Replying?
    || (pc.Inserting? && pc.queued) || (pc.Running? && pc.queued)
    || (pc.Finished? && pc.queued) || (pc.Sent? && pc.queued)
  }

  /** The value on the channel will come, or has come, from a function started for `id`. */
  predicate Good(s: State, ch: Channel, id: Id) {
    && ch.owner in s.procs && s.procs[ch.owner].id == id
    && (ch in s.sent || if ch.Watch? then Registered(s.procs[ch.owner].pc) && !s.procs[ch.owner].pc.Sent?
                        else OwesReply(s.procs[ch.owner].pc))
  }

  /** Some call with this ID produced the value. */
  ghost predicate MadeFor(s: State, id: Id, v: Value) {
    exists q :: q in s.made && q in s.procs && s.made[q] == v && s.procs[q].id == id
  }

  ghost predicate WatchersOk(s: State) {
    forall id <- s.watchers :: var q := s.watchers[id]; q in s.procs && s.procs[q].id == id && Registered(s.procs[q].pc)
  }

  ghost predicate QueueOk(s: State) {
    forall id <- s.queue :: var q := s.queue[id]; q in s.procs && s.procs[q].id == id && InQueue(s.procs[q].pc)
  }

  predicate ProcessOk(s: State, p: nat)
    requires p in s.procs
  {
    var pr := s.procs[p];
    && (Produced(pr.pc) ==> p in s.made)
    && (pr.pc.Sent? ==> Watch(p) in s.sent)
    && (pr.pc.Waiting? ==> Good(s, pr.pc.channel, pr.id))
  }

  ghost predicate ProcsOk(s: State) {
    forall p <- s.procs :: ProcessOk(s, p)
  }

  ghost predicate SentOk(s: State) {
    forall ch <- s.sent :: ch.owner in s.made && s.sent[ch] == s.made[ch.owner]
  }

  ghost predicate MadeOk(s: State) {
    forall p <- s.made :: p in s.procs && !Fresh(s.procs[p].pc)
  }

  /** The call's function has not ended. */
  predicate Fresh(pc: Pc) {
    pc.Start? || pc.AtQueue? || pc.ToEnqueue? || InQueue(pc) || pc.Inserting? || pc.Running? || pc.Waiting?
  }

  ghost predicate AnswersOk(s: State) {
    forall p <- s.procs :: s.procs[p].pc.Returned? && s.procs[p].pc.answer.Ok? ==>
      MadeFor(s, s.procs[p].id, s.procs[p].pc.answer.value)
  }

  ghost predicate Inv(s: State) {
    WatchersOk(s) && QueueOk(s) && ProcsOk(s) && SentOk(s) && MadeOk(s) && AnswersOk(s)
  }

  /** Calls keep their ID. */
  lemma IdKept(c: Config, s: State, a: Action, p: nat)
    requires Enabled(c, s, a) && p in s.procs
    ensures p in Do(c, s, a).procs && Do(c, s, a).procs[p].id == s.procs[p].id
    ensures p != a.p ==> Do(c, s, a).procs[p] == s.procs[p]
  {
  }

  lemma WatcherStep(c: Config, s: State, a: Action, id: Id)
    requires WatchersOk(s) && Enabled(c, s, a) && id in Do(c, s, a).watchers
    ensures var s' := Do(c, s, a);
            var q := s'.watchers[id];
            q in s'.procs && s'.procs[q].id == id && Registered(s'.procs[q].pc)
  {
  }

  lemma QueueStep(c: Config, s: State, a: Action, id: Id)
    requires QueueOk(s) && Enabled(c, s, a) && id in Do(c, s, a).queue
    ensures var s' := Do(c, s, a);
            var q := s'.queue[id];
            q in s'.procs && s'.procs[q].id == id && InQueue(s'.procs[q].pc)
  {
  }

  lemma ChannelStep(c: Config, s: State, a: Action, ch: Channel)
    requires SentOk(s) && MadeOk(s) && Enabled(c, s, a) && ch in Do(c, s, a).sent
    ensures var s' := Do(c, s, a); ch.owner in s'.made && s'.sent[ch] == s'.made[ch.owner]
  {
  }

  lemma MadeStep(c: Config, s: State, a: Action, p: nat)
    requires MadeOk(s) && Enabled(c, s, a) && p in Do(c, s, a).made
    ensures var s' := Do(c, s, a); p in s'.procs && !Fresh(s'.procs[p].pc)
  {
  }

  /** What was produced stays. */
  lemma MadeKept(c: Config, s: State, a: Action, p: nat)
    requires MadeOk(s) && Enabled(c, s, a) && p in s.made
    ensures p in Do(c, s, a).made && Do(c, s, a).made[p] == s.made[p]
  {
  }

  lemma GoodStep(c: Config, s: State, a: Action, ch: Channel, id: Id)
    requires Enabled(c, s, a) && Good(s, ch, id)
    ensures Good(Do(c, s, a), ch, id)
  {
    IdKept(c, s, a, ch.owner);
  }

  lemma OtherProcess(c: Config, s: State, a: Action, p: nat)
    requires Inv(s) && Enabled(c, s, a) && p in s.procs && p != a.p
    ensures p in Do(c, s, a).procs && ProcessOk(Do(c, s, a), p)
  {
    IdKept(c, s, a, p);
    assert ProcessOk(s, p);
    if Produced(s.procs[p].pc) {
      MadeKept(c, s, a, p);
    }
    if s.procs[p].pc.Waiting? {
      GoodStep(c, s, a, s.procs[p].pc.channel, s.procs[p].id);
    }
    SentKept(c, s, a, Watch(p));
  }

  lemma SentKept(c: Config, s: State, a: Action, ch: Channel)
    requires Enabled(c, s, a)
    ensures ch in s.sent ==> ch in Do(c, s, a).sent
  {
  }

  /** A receiver found in a map leads to an answer. */
  lemma FoundGood(s: State, id: Id)
    requires Inv(s)
    ensures id in s.watchers ==> Good(s, Watch(s.watchers[id]), id)
    ensures id in s.queue ==> Good(s, Queue(s.queue[id]), id)
  {
    if id in s.watchers {
      assert ProcessOk(s, s.watchers[id]);
    }
  }

  lemma JoinsGood(c: Config, s: State, a: Action)
    requires Inv(s) && Enabled(c, s, a) && (a.Join? || a.JoinQueue?)
    ensures ProcessOk(Do(c, s, a), a.p)
  {
    FoundGood(s, s.procs[a.p].id);
    GoodStep(c, s, a, Do(c, s, a).procs[a.p].pc.channel, s.procs[a.p].id);
  }

  lemma OwnProducer(c: Config, s: State, a: Action)
    requires Enabled(c, s, a) && (a.p in s.procs ==> ProcessOk(s, a.p)) && !a.Call? && !a.Join? && !a.JoinQueue?
    ensures ProcessOk(Do(c, s, a), a.p)
  {
  }

  lemma OwnProcess(c: Config, s: State, a: Action)
    requires Inv(s) && Enabled(c, s, a)
    ensures a.p in Do(c, s, a).procs && ProcessOk(Do(c, s, a), a.p)
  {
    if a.Join? || a.JoinQueue? {
      JoinsGood(c, s, a);
    } else if a.Call? {
      assert Do(c, s, a).procs[a.p].pc.Start?;
    } else {
      OwnProducer(c, s, a);
    }
  }

  lemma MadeForKept(c: Config, s: State, a: Action, id: Id, v: Value)
    requires Inv(s) && Enabled(c, s, a) && MadeFor(s, id, v)
    ensures MadeFor(Do(c, s, a), id, v)
  {
    var q :| q in s.made && q in s.procs && s.made[q] == v && s.procs[q].id == id;
    MadeKept(c, s, a, q);
    IdKept(c, s, a, q);
  }

  /** A call returns what its own function produced, or what its channel carries. */
  lemma ReturnsMade(c: Config, s: State, a: Action)
    requires Inv(s) && Enabled(c, s, a)
    ensures var pr := Do(c, s, a).procs[a.p];
            pr.pc.Returned? && pr.pc.answer.Ok? ==> MadeFor(s, pr.id, pr.pc.answer.value)
  {
    if a.Wake? {
      assert ProcessOk(s, a.p);
      var ch := s.procs[a.p].pc.channel;
      assert ch.owner in s.made && s.sent[ch] == s.made[ch.owner];
    } else if a.Remove? || a.Reply? {
      assert ProcessOk(s, a.p);
      assert a.p in s.made;
    }
  }

  lemma AnswerStep(c: Config, s: State, a: Action, p: nat)
    requires Inv(s) && Enabled(c, s, a) && p in Do(c, s, a).procs
    ensures var pr := Do(c, s, a).procs[p];
            pr.pc.Returned? && pr.pc.answer.Ok? ==> MadeFor(Do(c, s, a), pr.id, pr.pc.answer.value)
  {
    var pr := Do(c, s, a).procs[p];
    if pr.pc.Returned? && pr.pc.answer.Ok? {
      if p == a.p {
        ReturnsMade(c, s, a);
      } else {
        assert p in s.procs && s.procs[p] == pr;
      }
      MadeForKept(c, s, a, pr.id, pr.pc.answer.value);
    }
  }

  lemma MapsStep(c: Config, s: State, a: Action, s': State)
    requires Inv(s) && Enabled(c, s, a) && s' == Do(c, s, a)
    ensures WatchersOk(s') && QueueOk(s') && SentOk(s') && MadeOk(s')
  {
    forall id | id in s'.watchers
      ensures var q := s'.watchers[id]; q in s'.procs && s'.procs[q].id == id && Registered(s'.procs[q].pc)
    {
      WatcherStep(c, s, a, id);
    }
    forall id | id in s'.queue
      ensures var q := s'.queue[id]; q in s'.procs && s'.procs[q].id == id && InQueue(s'.procs[q].pc)
    {
      QueueStep(c, s, a, id);
    }
    forall ch | ch in s'.sent
      ensures ch.owner in s'.made && s'.sent[ch] == s'.made[ch.owner]
    {
      ChannelStep(c, s, a, ch);
    }
    forall p | p in s'.made
      ensures p in s'.procs && !Fresh(s'.procs[p].pc)
    {
      MadeStep(c, s, a, p);
    }
  }

  lemma ProcsStep(c: Config, s: State, a: Action, s': State)
    requires Inv(s) && Enabled(c, s, a) && s' == Do(c, s, a)
    ensures ProcsOk(s') && AnswersOk(s')
  {
    forall p | p in s'.procs
      ensures ProcessOk(s', p)
    {
      if p == a.p {
        OwnProcess(c, s, a);
      } else {
        OtherProcess(c, s, a, p);
      }
    }
    forall p | p in s'.procs && s'.procs[p].pc.Returned? && s'.procs[p].pc.answer.Ok?
      ensures MadeFor(s', s'.procs[p].id, s'.procs[p].pc.answer.value)
    {
      AnswerStep(c, s, a, p);
    }
  }

  lemma InvStep(c: Config, s: State, a: Action)
    requires Inv(s)
    ensures Inv(Step(c, s, a))
  {
    if Enabled(c, s, a) {
      MapsStep(c, s, a, Do(c, s, a));
      ProcsStep(c, s, a, Do(c, s, a));
    }
  }

  lemma {:induction false} InvRun(c: Config, s: State, actions: seq<Action>)
    requires Inv(s)
    ensures Inv(Run(c, s, actions))
    decreases actions
  {
    if actions != [] {
      InvStep(c, s, actions[0]);
      InvRun(c, Step(c, s, actions[0]), actions[1..]);
    }
  }

  /** In every interleaving: a receiver stored under an ID belongs to a call for that ID
      that has not removed its entry, and a value returned for an ID was produced by a
      function started for that ID. */
  lemma EveryRun(c: Config, actions: seq<Action>)
    ensures var s := Run(c, EMPTY, actions);
            && (forall id <- s.watchers :: var q := s.watchers[id];
                                           q in s.procs && s.procs[q].id == id && Registered(s.procs[q].pc))
            && (forall id <- s.queue :: var q := s.queue[id];
                                        q in s.procs && s.procs[q].id == id && InQueue(s.procs[q].pc))
            && (forall p <- s.procs :: s.procs[p].pc.Returned? && s.procs[p].pc.answer.Ok? ==>
                  MadeFor(s, s.procs[p].id, s.procs[p].pc.answer.value))
  {
    InvRun(c, EMPTY, actions);
  }

  // ---------------------------------------------------------------------
  // Whoever joined a call is answered once that call returns

  /** The call still waits on the channel, or has returned what the channel carries. */
  predicate Served(s: State, p: nat, ch: Channel) {
    At(s, p, Waiting(ch)) || (ch in s.sent && At(s, p, Returned(Ok(s.sent[ch]))))
  }

  lemma ServedStep(c: Config, s: State, a: Action, p: nat, ch: Channel)
    requires Inv(s) && Served(s, p, ch)
    ensures Served(Step(c, s, a), p, ch)
  {
    if Enabled(c, s, a) {
      IdKept(c, s, a, p);
      if ch in s.sent {
        SentSame(c, s, a, ch);
      }
    }
  }

  lemma SentSame(c: Config, s: State, a: Action, ch: Channel)
    requires Inv(s) && Enabled(c, s, a) && ch in s.sent
    ensures ch in Do(c, s, a).sent && Do(c, s, a).sent[ch] == s.sent[ch]
  {
    SentKept(c, s, a, ch);
    MadeKept(c, s, a, ch.owner);
    ChannelStep(c, s, a, ch);
  }

  lemma {:induction false} ServedRun(c: Config, s: State, actions: seq<Action>, p: nat, ch: Channel, id: Id)
    requires Inv(s) && Served(s, p, ch) && Good(s, ch, id)
    ensures Inv(Run(c, s, actions)) && Served(Run(c, s, actions), p, ch) && Good(Run(c, s, actions), ch, id)
    decreases actions
  {
    if actions != [] {
      ServedStep(c, s, actions[0], p, ch);
      if Enabled(c, s, actions[0]) {
        GoodStep(c, s, actions[0], ch, id);
      }
      InvStep(c, s, actions[0]);
      ServedRun(c, Step(c, s, actions[0]), actions[1..], p, ch, id);
    }
  }

  lemma WakeReturns(c: Config, s: State, p: nat, ch: Channel)
    requires Served(s, p, ch) && ch in s.sent
    ensures At(Step(c, s, Wake(p)), p, Returned(Ok(s.sent[ch])))
  {
  }

  /** A call that joined another one, executing or queued, returns the value that the
      other one's function made: after any schedule in which that call has returned, once
      the joiner takes its next step. */
  lemma JoinerAnswered(c: Config, s: State, actions: seq<Action>, p: nat, ch: Channel)
    requires Inv(s) && At(s, p, Waiting(ch))
    ensures var s' := Run(c, s, actions);
            && ch.owner in s'.procs
            && (s'.procs[ch.owner].pc.Returned? ==>
                  && ch.owner in s'.made
                  && At(Step(c, s', Wake(p)), p, Returned(Ok(s'.made[ch.owner]))))
  {
    assert ProcessOk(s, p);
    ServedRun(c, s, actions, p, ch, s.procs[p].id);
    var s' := Run(c, s, actions);
    if ch in s'.sent {
      WakeReturns(c, s', p, ch);
    }
  }
}
