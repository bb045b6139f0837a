/** The debounced worker that gathers messages and acknowledgements and hands them on in
    batches, and the mention fan-out of a batch. Storage is taken to work. */
module AckWorker {
  import opened Entities

  /** Instants and durations are in nanoseconds. */
  const SECOND := 1000000000
  const EXPIRE_CONSTANT := 30
  const SAVE_CONSTANT := 5

  datatype Message = Message(id: Id, recipients: seq<Id>, mass: bool, push: bool, silenced: bool)

  datatype Event = ProcessMessage(messages: seq<Message>) | AckMessage(id: Id)

  datatype Data = Data(channel: Id, user: Option<Id>, event: Event)

  datatype Kind = Ack | Process

  datatype Key = Key(user: Option<Id>, channel: Id, kind: Kind)

  datatype Delayed = Delayed(event: Event, runNow: bool, lastUpdated: nat, firstSeen: nat)

  /** A call of the event handler. */
  datatype Handed = Handed(key: Key, event: Event)

  function KindOf(event: Event): Kind {
    if event.AckMessage? then Ack else Process
  }

  function KeyOf(data: Data): Key {
    Key(data.user, data.channel, KindOf(data.event))
  }

  // ---------------------------------------------------------------------
  // When a task is due

  /** Whole seconds since an instant. */
  function Elapsed(since: nat, now: nat): nat {
    if now < since then 0 else (now - since) / SECOND
  }

  predicate ShouldRun(task: Delayed, now: nat) {
    || task.runNow
    || Elapsed(task.firstSeen, now) > EXPIRE_CONSTANT
    || Elapsed(task.lastUpdated, now) > SAVE_CONSTANT
  }

  /** A task is due exactly when it is flagged, 31 seconds old or 6 seconds idle. */
  lemma DueExactly(task: Delayed, now: nat)
    ensures ShouldRun(task, now) <==> DueAt(task, now)
  {
  }

  /** Flagged, 31 seconds old or 6 seconds idle. */
  predicate DueAt(task: Delayed, now: nat) {
    task.runNow || now >= task.firstSeen + 31_000_000_000 || now >= task.lastUpdated + 6_000_000_000
  }

  // ---------------------------------------------------------------------
  // What went in and what came out, key by key

  function Messages(event: Event): seq<Message> {
    if event.ProcessMessage? then event.messages else []
  }

  /** The event is one of this user, channel and kind. */
  predicate For(data: Data, key: Key) {
    data.user == key.user && data.channel == key.channel && (data.event.AckMessage? <==> key.kind == Ack)
  }

  /** The messages popped for a key, in order. */
  function Popped(log: seq<Data>, key: Key): seq<Message> {
    if log == [] then []
    else
      var last := log[|log| - 1];
      Popped(log[..|log| - 1], key) + if For(last, key) then Messages(last.event) else []
  }

  /** The messages handed on for a key, batch after batch. */
  function Sent(handed: seq<Handed>, key: Key): seq<Message> {
    if handed == [] then []
    else
      var last := handed[|handed| - 1];
      Sent(handed[..|handed| - 1], key) + if last.key == key then Messages(last.event) else []
  }

  function Waiting(tasks: map<Key, Delayed>, key: Key): seq<Message> {
    if key in tasks then Messages(tasks[key].event) else []
  }

  /** All that has been taken in for a key: what was handed on and then what waits. */
  function Flow(handed: seq<Handed>, tasks: map<Key, Delayed>, key: Key): seq<Message> {
    Sent(handed, key) + Waiting(tasks, key)
  }

  function LastPopped(log: seq<Data>, key: Key): Option<Id> {
    if log == [] then None
    else
      var last := log[|log| - 1];
      if For(last, key) && last.event.AckMessage? then Some(last.event.id) else LastPopped(log[..|log| - 1], key)
  }

  function LastHanded(handed: seq<Handed>, key: Key): Option<Id> {
    if handed == [] then None
    else
      var last := handed[|handed| - 1];
      if last.key == key && last.event.AckMessage? then Some(last.event.id) else LastHanded(handed[..|handed| - 1], key)
  }

  /** The acknowledgement that waits for a key, or else the last one handed on. */
  function CurrentAck(handed: seq<Handed>, tasks: map<Key, Delayed>, key: Key): Option<Id> {
    if key in tasks && tasks[key].event.AckMessage? then Some(tasks[key].event.id) else LastHanded(handed, key)
  }

  predicate KindsMatch(tasks: map<Key, Delayed>) {
    forall key <- tasks :: KindOf(tasks[key].event) == key.kind
  }

  // ---------------------------------------------------------------------
  // Taking one event in

  /** A waiting task takes only the last message of a new event. */
  function Contribution(tasks: map<Key, Delayed>, data: Data): seq<Message> {
    var ms := Messages(data.event);
    if KeyOf(data) !in tasks || ms == [] then ms else [ms[|ms| - 1]]
  }

  lemma PoppedOne(log: seq<Data>, data: Data, key: Key)
    ensures Popped(log + [data], key) == Popped(log, key) + if KeyOf(data) == key then Messages(data.event) else []
    ensures LastPopped(log + [data], key) ==
            if KeyOf(data) == key && data.event.AckMessage? then Some(data.event.id) else LastPopped(log, key)
  {
    assert (log + [data])[..|log|] == log;
  }

  lemma SentOne(handed: seq<Handed>, h: Handed, key: Key)
    ensures Sent(handed + [h], key) == Sent(handed, key) + if h.key == key then Messages(h.event) else []
    ensures LastHanded(handed + [h], key) ==
            if h.key == key && h.event.AckMessage? then Some(h.event.id) else LastHanded(handed, key)
  {
    assert (handed + [h])[..|handed|] == handed;
  }

  /** Handing a task on leaves what has been taken in as it was. */
  lemma HandKeepsFlow(handed: seq<Handed>, tasks: map<Key, Delayed>, k: Key, rest: map<Key, Delayed>, key: Key)
    requires KindsMatch(tasks) && k in tasks && rest == map q <- tasks | q != k :: tasks[q]
    ensures Flow(handed + [Handed(k, tasks[k].event)], rest, key) == Flow(handed, tasks, key)
    ensures CurrentAck(handed + [Handed(k, tasks[k].event)], rest, key) == CurrentAck(handed, tasks, key)
  {
    SentOne(handed, Handed(k, tasks[k].event), key);
  }

  /** The tasks after an event: what changes under its key and when. The length is
      compared as a 16-bit number. */
  function Absorbed(tasks: map<Key, Delayed>, data: Data, delayLimit: nat, t: nat, u: nat): map<Key, Delayed>
    requires KindsMatch(tasks)
  {
    var key := KeyOf(data);
    if key !in tasks then tasks[key := Delayed(data.event, false, t, u)]
    else
      var task := tasks[key];
      if data.event.AckMessage? then tasks[key := task.(event := data.event, lastUpdated := t)]
      else
        var ms := data.event.messages;
        if ms == [] then tasks
        else
          var m := ms[|ms| - 1];
          var all := task.event.messages + [m];
          tasks[key := Delayed(ProcessMessage(all), task.runNow || m.mass,
                               if !m.mass && |all| % 0x1_0000 < delayLimit then t else task.lastUpdated, task.firstSeen)]
  }

  /** What taking one event in does to the waiting tasks: nothing under other keys; a new task
      for a new key; an acknowledgement replaces the waiting one; and of a batch the last
      message is appended, which makes the task due at once if it is a mass mention, and
      otherwise puts it off while the batch is below the limit. */
  ghost predicate TakenIn(before: map<Key, Delayed>, data: Data, delayLimit: nat, t: nat, u: nat, after: map<Key, Delayed>) {
    && (forall k :: !For(data, k) ==> (k in after <==> k in before) && (k in before ==> after[k] == before[k]))
    && (forall k :: For(data, k) ==> k in after && TaskTakes(k in before, if k in before then before[k] else after[k], data.event, delayLimit, t, u, after[k]))
  }

  ghost predicate TaskTakes(waiting: bool, was: Delayed, event: Event, delayLimit: nat, t: nat, u: nat, next: Delayed) {
    if !waiting then next.event == event && !next.runNow && next.lastUpdated == t && next.firstSeen == u
    else
      && next.firstSeen == was.firstSeen
      && match event
         case AckMessage(_) => next.event == event && next.lastUpdated == t && next.runNow == was.runNow
         case ProcessMessage(ms) =>
           if ms == [] then next == was
           else
             var m := ms[|ms| - 1];
             && Messages(next.event) == Messages(was.event) + [m]
             && (m.mass ==> next.lastUpdated == was.lastUpdated && forall now: nat :: DueAt(next, now))
             && (!m.mass ==>
                   && next.runNow == was.runNow
                   && (if (|Messages(was.event)| + 1) % 65536 < delayLimit then next.lastUpdated == t
                       else next.lastUpdated == was.lastUpdated))
  }

  lemma AbsorbedTaken(tasks: map<Key, Delayed>, data: Data, delayLimit: nat, t: nat, u: nat)
    requires KindsMatch(tasks)
    ensures TakenIn(tasks, data, delayLimit, t, u, Absorbed(tasks, data, delayLimit, t, u))
  {
  }

  lemma AbsorbedFlow(handed: seq<Handed>, tasks: map<Key, Delayed>, data: Data, delayLimit: nat, t: nat, u: nat, key: Key)
    requires KindsMatch(tasks)
    ensures var tasks' := Absorbed(tasks, data, delayLimit, t, u);
            && KindsMatch(tasks')
            && Flow(handed, tasks', key) ==
               Flow(handed, tasks, key) + (if key == KeyOf(data) then Contribution(tasks, data) else [])
            && CurrentAck(handed, tasks', key) ==
               if key == KeyOf(data) && data.event.AckMessage? then Some(data.event.id) else CurrentAck(handed, tasks, key)
  {
  }

  /** No message of an event is lost exactly when nothing waits under its key or it holds
      no more than one. */
  lemma TakenWholeExactly(handed: seq<Handed>, tasks: map<Key, Delayed>, data: Data, delayLimit: nat, t: nat, u: nat)
    requires KindsMatch(tasks)
    ensures var key, ms := KeyOf(data), Messages(data.event);
            var after := Flow(handed, Absorbed(tasks, data, delayLimit, t, u), key);
            (after == Flow(handed, tasks, key) + ms <==> key !in tasks || |ms| <= 1)
  {
    var ms := Messages(data.event);
    AbsorbedFlow(handed, tasks, data, delayLimit, t, u, KeyOf(data));
    if KeyOf(data) in tasks && |ms| > 1 {
      assert |Contribution(tasks, data)| == 1;
      assert |Flow(handed, tasks, KeyOf(data)) + ms| > |Flow(handed, tasks, KeyOf(data))| + 1;
    }
  }

  lemma AbsorbedOk(handed: seq<Handed>, tasks: map<Key, Delayed>, popped: seq<Data>, data: Data,
                   delayLimit: nat, t: nat, u: nat)
    requires KindsMatch(tasks)
    requires forall key :: CurrentAck(handed, tasks, key) == LastPopped(popped, key)
    requires OneEach(popped) ==> forall key :: Flow(handed, tasks, key) == Popped(popped, key)
    ensures var tasks' := Absorbed(tasks, data, delayLimit, t, u);
            && KindsMatch(tasks')
            && Flow(handed, tasks', KeyOf(data)) == Flow(handed, tasks, KeyOf(data)) + Contribution(tasks, data)
            && (forall key :: CurrentAck(handed, tasks', key) == LastPopped(popped + [data], key))
            && (OneEach(popped + [data]) ==> forall key :: Flow(handed, tasks', key) == Popped(popped + [data], key))
  {
    var tasks' := Absorbed(tasks, data, delayLimit, t, u);
    forall key
      ensures CurrentAck(handed, tasks', key) == LastPopped(popped + [data], key)
      ensures OneEach(popped + [data]) ==> Flow(handed, tasks', key) == Popped(popped + [data], key)
    {
      AbsorbedFlow(handed, tasks, data, delayLimit, t, u, key);
      PoppedOne(popped, data, key);
      if OneEach(popped + [data]) {
        OneEachPrefix(popped, data);
        TakenWholeExactly(handed, tasks, data, delayLimit, t, u);
      }
    }
    AbsorbedFlow(handed, tasks, data, delayLimit, t, u, KeyOf(data));
  }

  lemma OneEachPrefix(log: seq<Data>, data: Data)
    requires OneEach(log + [data])
    ensures OneEach(log) && |Messages(data.event)| <= 1
  {
    forall i | 0 <= i < |log|
      ensures |Messages(log[i].event)| <= 1
    {
      assert (log + [data])[i] == log[i];
    }
    assert (log + [data])[|log|] == data;
  }

  /** A batch whose last message, the one a waiting task takes, is a mass mention. */
  predicate EndsInMass(data: Data) {
    data.event.ProcessMessage? && data.event.messages != [] && data.event.messages[|data.event.messages| - 1].mass
  }

  /** One of the first `n` events is for the key. */
  ghost predicate Met(incoming: seq<Data>, n: nat, k: Key) {
    exists i :: 0 <= i < n && i < |incoming| && For(incoming[i], k)
  }

  /** Event `j` ends in a mass mention, and a task waits for it: from before, or begun by an
      earlier event. */
  ghost predicate Rushes(before: map<Key, Delayed>, incoming: seq<Data>, j: nat, k: Key) {
    j < |incoming| && For(incoming[j], k) && EndsInMass(incoming[j]) && (k in before || Met(incoming, j, k))
  }

  /** The tasks after the first `n` events: nothing else came in, nothing was dropped, and who
      took a mass mention while waiting is flagged. */
  ghost predicate Progress(before: map<Key, Delayed>, incoming: seq<Data>, n: nat, tasks: map<Key, Delayed>) {
    && (forall k <- tasks :: Met(incoming, n, k) || (k in before && tasks[k] == before[k]))
    && (forall k :: k in before || Met(incoming, n, k) ==> k in tasks)
    && (forall j: nat, k :: j < n && Rushes(before, incoming, j, k) ==> k in tasks && tasks[k].runNow)
  }

  lemma MetOneMore(incoming: seq<Data>, n: nat, k: Key)
    requires n < |incoming|
    ensures Met(incoming, n + 1, k) <==> Met(incoming, n, k) || For(incoming[n], k)
  {
  }

  lemma FlagStays(tasks: map<Key, Delayed>, data: Data, delayLimit: nat, t: nat, u: nat, tasks': map<Key, Delayed>, k: Key)
    requires TakenIn(tasks, data, delayLimit, t, u, tasks') && k in tasks
    ensures k in tasks' && (tasks[k].runNow || (For(data, k) && EndsInMass(data)) ==> tasks'[k].runNow)
  {
    if For(data, k) && EndsInMass(data) {
      assert DueAt(tasks'[k], 0);
      assert tasks'[k].firstSeen >= 0;
    }
  }

  lemma Advance(before: map<Key, Delayed>, incoming: seq<Data>, n: nat, delayLimit: nat, t: nat, u: nat,
                tasks: map<Key, Delayed>, tasks': map<Key, Delayed>)
    requires n < |incoming| && Progress(before, incoming, n, tasks) && TakenIn(tasks, incoming[n], delayLimit, t, u, tasks')
    ensures Progress(before, incoming, n + 1, tasks')
  {
    forall k
      ensures k in tasks' ==> Met(incoming, n + 1, k) || (k in before && tasks'[k] == before[k])
      ensures k in before || Met(incoming, n + 1, k) ==> k in tasks'
    {
      MetOneMore(incoming, n, k);
    }
    forall j: nat, k | j < n + 1 && Rushes(before, incoming, j, k)
      ensures k in tasks' && tasks'[k].runNow
    {
      FlagStays(tasks, incoming[n], delayLimit, t, u, tasks', k);
    }
  }

  predicate OneEach(log: seq<Data>) {
    forall i :: 0 <= i < |log| ==> |Messages(log[i].event)| <= 1
  }

  // ---------------------------------------------------------------------
  // The worker

  class Worker {
    var tasks: map<Key, Delayed>
    /** The calls of the event handler so far. */
    var handed: seq<Handed>
    const delayLimit: nat
    ghost var popped: seq<Data>

    /** Tasks are of their key's kind; what is pending for an acknowledgement is the last
        one popped; with one message an event, the batches handed on and the pending
        batch are the messages popped, in order. */
    ghost predicate Valid()
      reads this
    {
      && KindsMatch(tasks)
      && (forall key :: CurrentAck(handed, tasks, key) == LastPopped(popped, key))
      && (OneEach(popped) ==> forall key :: Flow(handed, tasks, key) == Popped(popped, key))
    }

    constructor (delayLimit: nat)
      ensures Valid() && tasks == map[] && handed == [] && popped == [] && this.delayLimit == delayLimit
    {
      tasks, handed, popped := map[], [], [];
      this.delayLimit := delayLimit;
    }

    /** Find the due tasks; each is looked at once, at a time of its own. */
    method Due(order: seq<Key>, readings: seq<nat>) returns (keys: seq<Key>)
      requires |readings| == |order| && forall i :: 0 <= i < |order| ==> order[i] in tasks
      ensures forall k <- keys :: k in order
      ensures forall i :: 0 <= i < |order| && ShouldRun(tasks[order[i]], readings[i]) ==> order[i] in keys
      ensures (forall i, j :: 0 <= i < j < |order| ==> order[i] != order[j]) ==>
                forall i :: 0 <= i < |order| && order[i] in keys ==> ShouldRun(tasks[order[i]], readings[i])
    {
      keys := [];
      for n := 0 to |order|
        invariant forall k <- keys :: k in order[..n]
        invariant forall i :: 0 <= i < n && ShouldRun(tasks[order[i]], readings[i]) ==> order[i] in keys
        invariant (forall i, j :: 0 <= i < j < |order| ==> order[i] != order[j]) ==>
                    forall i :: 0 <= i < n && order[i] in keys ==> ShouldRun(tasks[order[i]], readings[i])
      {
        if ShouldRun(tasks[order[n]], readings[n]) {
          keys := keys + [order[n]];
        }
      }
    }

    /** Take a task out and hand its event on. */
    method HandOne(key: Key)
      requires Valid() && key in tasks
      modifies this`tasks, this`handed
      ensures Valid()
      ensures tasks == map q <- old(tasks) | q != key :: old(tasks)[q]
      ensures handed == old(handed) + [Handed(key, old(tasks)[key].event)]
      ensures forall k :: Flow(handed, tasks, k) == old(Flow(handed, tasks, k))
    {
      var rest := map q <- tasks | q != key :: tasks[q];
      forall k
        ensures Flow(handed + [Handed(key, tasks[key].event)], rest, k) == Flow(handed, tasks, k)
        ensures CurrentAck(handed + [Handed(key, tasks[key].event)], rest, k) == CurrentAck(handed, tasks, k)
      {
        HandKeepsFlow(handed, tasks, key, rest, k);
      }
      handed := handed + [Handed(key, tasks[key].event)];
      tasks := rest;
    }

    /** Hand on every due task. Nothing is lost or reordered, a task stays only if it was
        not due when looked at, and then it was not due when the scan began. */
    method Scan(order: seq<Key>, readings: seq<nat>, start: nat)
      requires Valid() && |readings| == |order|
      requires forall k :: k in order <==> k in tasks
      requires forall i, j :: 0 <= i < j < |order| ==> order[i] != order[j]
      requires forall i :: 0 <= i < |readings| ==> start <= readings[i]
      modifies this`tasks, this`handed
      ensures Valid() && old(handed) <= handed
      ensures forall k <- tasks :: k in old(tasks) && tasks[k] == old(tasks)[k] && !DueAt(tasks[k], start)
      ensures forall i :: 0 <= i < |order| ==> (order[i] in tasks <==> !DueAt(old(tasks)[order[i]], readings[i]))
      ensures forall k <- old(tasks) :: k in tasks || Handed(k, old(tasks)[k].event) in handed[|old(handed)|..]
      ensures forall i :: 0 <= i < |order| && DueAt(old(tasks)[order[i]], readings[i]) ==>
                Handed(order[i], old(tasks)[order[i]].event) in handed[|old(handed)|..]
      ensures forall k :: Flow(handed, tasks, k) == old(Flow(handed, tasks, k))
    {
      var keys := Due(order, readings);
      HandAll(keys);
      forall i | 0 <= i < |order|
        ensures ShouldRun(old(tasks)[order[i]], readings[i]) <==> DueAt(old(tasks)[order[i]], readings[i])
        ensures DueAt(old(tasks)[order[i]], start) ==> DueAt(old(tasks)[order[i]], readings[i])
      {
        DueExactly(old(tasks)[order[i]], readings[i]);
      }
    }

    /** Hand on the tasks under the given keys. */
    method HandAll(keys: seq<Key>)
      requires Valid()
      modifies this`tasks, this`handed
      ensures Valid() && old(handed) <= handed
      ensures tasks == map k <- old(tasks) | k !in keys :: old(tasks)[k]
      ensures forall k <- old(tasks) :: k in keys ==> Handed(k, old(tasks)[k].event) in handed[|old(handed)|..]
      ensures forall k :: Flow(handed, tasks, k) == old(Flow(handed, tasks, k))
    {
      ghost var before := tasks;
      for n := 0 to |keys|
        invariant Valid() && old(handed) <= handed
        invariant forall k <- tasks :: k in before && tasks[k] == before[k]
        invariant forall k <- before :: k in tasks <==> k !in keys[..n]
        invariant forall k <- before :: k in keys[..n] ==> Handed(k, before[k].event) in handed[|old(handed)|..]
        invariant forall k :: Flow(handed, tasks, k) == old(Flow(handed, tasks, k))
      {
        ghost var so := handed;
        if keys[n] in tasks {
          HandOne(keys[n]);
          assert handed[|old(handed)|..] == so[|old(handed)|..] + [Handed(keys[n], before[keys[n]].event)];
        }
      }
    }

    /** Take one event in: a new task, or a change to the waiting one. `t` and `u` are the
        readings for a new or changed task. */
    method Take(data: Data, t: nat, u: nat)
      requires Valid()
      modifies this`tasks, this`popped
      ensures Valid() && popped == old(popped) + [data]
      ensures var k := KeyOf(data);
              k in tasks && Flow(handed, tasks, k) == old(Flow(handed, tasks, k)) + old(Contribution(tasks, data))
      ensures tasks == old(Absorbed(tasks, data, delayLimit, t, u))
      ensures TakenIn(old(tasks), data, delayLimit, t, u, tasks)
    {
      ghost var before := tasks;
      var key := KeyOf(data);
      if key in tasks {
        var task := tasks[key];
        match data.event {
          case ProcessMessage(ms) =>
            if ms != [] {
              var newEvent := ms[|ms| - 1];
              var existing := task.event.messages + [newEvent];
              task := task.(event := ProcessMessage(existing));
              if newEvent.mass {
                task := task.(runNow := true);
              } else if |existing| % 0x1_0000 < delayLimit {
                task := task.(lastUpdated := t);
              }
            }
          case AckMessage(_) =>
            task := task.(event := data.event, lastUpdated := t);
        }
        tasks := tasks[key := task];
      } else {
        tasks := tasks[key := Delayed(data.event, false, t, u)];
      }
      assert tasks == Absorbed(before, data, delayLimit, t, u);
      AbsorbedOk(handed, before, popped, data, delayLimit, t, u);
      AbsorbedTaken(before, data, delayLimit, t, u);
      popped := popped + [data];
    }

    /** One turn of the worker: hand on what is due, then empty the queue. What was due is
        handed on; a task that no incoming event touched was there before and was not due
        when the turn began. */
    method Turn(order: seq<Key>, readings: seq<nat>, start: nat, incoming: seq<Data>, clock: seq<(nat, nat)>)
      requires Valid() && |readings| == |order| && |clock| == |incoming|
      requires forall k :: k in order <==> k in tasks
      requires forall i, j :: 0 <= i < j < |order| ==> order[i] != order[j]
      requires forall i :: 0 <= i < |readings| ==> start <= readings[i]
      modifies this
      ensures Valid() && popped == old(popped) + incoming && old(handed) <= handed
      ensures forall i :: 0 <= i < |order| && DueAt(old(tasks)[order[i]], readings[i]) ==>
                Handed(order[i], old(tasks)[order[i]].event) in handed[|old(handed)|..]
      ensures forall k <- old(tasks) :: old(tasks)[k].runNow ==> Handed(k, old(tasks)[k].event) in handed[|old(handed)|..]
      ensures forall k <- tasks :: Met(incoming, |incoming|, k) ||
                (k in old(tasks) && tasks[k] == old(tasks)[k] && !DueAt(tasks[k], start))
      ensures forall j: nat, k :: Rushes(old(tasks), incoming, j, k) ==>
                || (k in tasks && tasks[k].runNow)
                || (k in old(tasks) && Handed(k, old(tasks)[k].event) in handed[|old(handed)|..])
    {
      Scan(order, readings, start);
      ghost var scanned := tasks;
      TakeAll(incoming, clock);
      forall j: nat, k | Rushes(old(tasks), incoming, j, k)
        ensures Rushes(scanned, incoming, j, k)
                || (k in old(tasks) && Handed(k, old(tasks)[k].event) in handed[|old(handed)|..])
      {
      }
    }

    method TakeAll(incoming: seq<Data>, clock: seq<(nat, nat)>)
      requires Valid() && |clock| == |incoming|
      modifies this`tasks, this`popped
      ensures Valid() && popped == old(popped) + incoming
      ensures forall k <- tasks :: Met(incoming, |incoming|, k) || (k in old(tasks) && tasks[k] == old(tasks)[k])
      ensures forall j: nat, k :: Rushes(old(tasks), incoming, j, k) ==> k in tasks && tasks[k].runNow
    {
      ghost var before, was := popped, tasks;
      for n := 0 to |incoming|
        invariant Valid() && popped == before + incoming[..n]
        invariant Progress(was, incoming, n, tasks)
      {
        assert incoming[..n + 1] == incoming[..n] + [incoming[n]];
        ghost var so := tasks;
        Take(incoming[n], clock[n].0, clock[n].1);
        Advance(was, incoming, n, delayLimit, clock[n].0, clock[n].1, so, tasks);
      }
      assert incoming[..|incoming|] == incoming;
    }

    /** Batching is invisible to push notices: each message popped is pushed once, in order,
        if it is to be pushed at all. */
    lemma PushesConserved(key: Key)
      requires Valid() && OneEach(popped)
      ensures PushesSent(handed, key) + PushesOf(Waiting(tasks, key)) == PushesOf(Popped(popped, key))
    {
      PushesSentIsSent(handed, key);
      PushesAppend(Sent(handed, key), Waiting(tasks, key));
      assert Flow(handed, tasks, key) == Popped(popped, key);
    }

    /** Batching is invisible to the unread lists: the mentions added for a user so far,
        followed by those of the pending batch, are the user's among the messages popped. */
    lemma MentionsConserved(key: Key, user: Id)
      requires Valid() && OneEach(popped)
      ensures Added(handed, key, user) + IdsFor(Waiting(tasks, key), user) == IdsFor(Popped(popped, key), user)
    {
      AddedIsSent(handed, key, user);
      IdsForAppend(Sent(handed, key), Waiting(tasks, key), user);
      assert Flow(handed, tasks, key) == Popped(popped, key);
    }
  }

  // ---------------------------------------------------------------------
  // Handing a batch on: mentions

  /** The messages that mention the user, in order. */
  function IdsFor(messages: seq<Message>, user: Id): seq<Id> {
    if messages == [] then []
    else
      var last := messages[|messages| - 1];
      IdsFor(messages[..|messages| - 1], user) + if user in last.recipients then [last.id] else []
  }

  lemma {:induction false} IdsForAppend(a: seq<Message>, b: seq<Message>, user: Id)
    ensures IdsFor(a + b, user) == IdsFor(a, user) + IdsFor(b, user)
  {
    if b == [] {
      assert a + b == a;
    } else {
      assert (a + b)[..|a + b| - 1] == a + b[..|b| - 1];
      IdsForAppend(a, b[..|b| - 1], user);
    }
  }

  /** The mentions added for a user by the batches handed on for a key. */
  function Added(handed: seq<Handed>, key: Key, user: Id): seq<Id> {
    if handed == [] then []
    else
      var last := handed[|handed| - 1];
      Added(handed[..|handed| - 1], key, user) + if last.key == key then IdsFor(Messages(last.event), user) else []
  }

  lemma {:induction false} AddedIsSent(handed: seq<Handed>, key: Key, user: Id)
    ensures Added(handed, key, user) == IdsFor(Sent(handed, key), user)
  {
    if handed != [] {
      var last := handed[|handed| - 1];
      AddedIsSent(handed[..|handed| - 1], key, user);
      IdsForAppend(Sent(handed[..|handed| - 1], key), if last.key == key then Messages(last.event) else [], user);
    }
  }

  function Mentions(unread: map<Id, seq<Id>>, user: Id): seq<Id> {
    if user in unread then unread[user] else []
  }

  method Collect(messages: seq<Message>, user: Id) returns (ids: seq<Id>)
    ensures ids == IdsFor(messages, user)
  {
    ids := [];
    for n := 0 to |messages|
      invariant ids == IdsFor(messages[..n], user)
    {
      assert messages[..n + 1][..n] == messages[..n];
      if user in messages[n].recipients {
        ids := ids + [messages[n].id];
      }
    }
    assert messages[..|messages|] == messages;
  }

  function RecipientSet(messages: seq<Message>): set<Id> {
    set m <- messages, u <- m.recipients :: u
  }

  lemma {:induction false} NotRecipient(messages: seq<Message>, user: Id)
    requires user !in RecipientSet(messages)
    ensures IdsFor(messages, user) == []
  {
    if messages != [] {
      NotRecipient(messages[..|messages| - 1], user);
    }
  }

  method Recipients(messages: seq<Message>) returns (users: set<Id>)
    ensures users == RecipientSet(messages)
  {
    users := {};
    for n := 0 to |messages|
      invariant users == RecipientSet(messages[..n])
    {
      assert messages[..n + 1] == messages[..n] + [messages[n]];
      users := users + set u <- messages[n].recipients;
    }
    assert messages[..|messages|] == messages;
  }

  /** Who has been told: the users already gone through. */
  ghost predicate Told(unread: map<Id, seq<Id>>, unread': map<Id, seq<Id>>, messages: seq<Message>, done: set<Id>) {
    forall u :: Mentions(unread', u) == if u in done then Mentions(unread, u) + IdsFor(messages, u) else Mentions(unread, u)
  }

  lemma TellOne(unread: map<Id, seq<Id>>, unread': map<Id, seq<Id>>, messages: seq<Message>, done: set<Id>, user: Id)
    requires Told(unread, unread', messages, done) && user !in done
    ensures Told(unread, unread'[user := Mentions(unread', user) + IdsFor(messages, user)], messages, done + {user})
    ensures IdsFor(messages, user) == [] ==> Told(unread, unread', messages, done + {user})
  {
  }

  /** Each user is told of exactly the messages of the batch that mention them, in order;
      `unread` is the channel's unread list, user by user. */
  method FanOut(messages: seq<Message>, unread: map<Id, seq<Id>>) returns (unread': map<Id, seq<Id>>)
    ensures forall u :: Mentions(unread', u) == Mentions(unread, u) + IdsFor(messages, u)
  {
    var users := Recipients(messages);
    unread' := unread;
    var left := users;
    ghost var done: set<Id> := {};
    while left != {}
      invariant left + done == users && left !! done
      invariant Told(unread, unread', messages, done)
      decreases left
    {
      var user :| user in left;
      var ids := Collect(messages, user);
      TellOne(unread, unread', messages, done, user);
      if ids != [] {
        unread' := unread'[user := Mentions(unread', user) + ids];
      }
      left := left - {user};
      done := done + {user};
    }
    forall u
      ensures Mentions(unread', u) == Mentions(unread, u) + IdsFor(messages, u)
    {
      if u !in users {
        NotRecipient(messages, u);
      }
    }
  }

  // ---------------------------------------------------------------------
  // Push notices

  /** The messages a push notice goes out for. */
  predicate Pushed(m: Message) {
    !m.silenced && m.push && (m.recipients != [] || m.mass)
  }

  function PushesOf(messages: seq<Message>): seq<Message> {
    if messages == [] then []
    else
      var last := messages[|messages| - 1];
      PushesOf(messages[..|messages| - 1]) + if Pushed(last) then [last] else []
  }

  function MassOf(messages: seq<Message>): seq<Message> {
    if messages == [] then []
    else
      var last := messages[|messages| - 1];
      MassOf(messages[..|messages| - 1]) + if Pushed(last) && last.mass then [last] else []
  }

  /** The notices of a batch: one for each message that is to be pushed, in order, and the
      mass mentions among them gathered for one more. */
  method Notices(messages: seq<Message>) returns (pushes: seq<Message>, mass: seq<Message>)
    ensures pushes == PushesOf(messages) && mass == MassOf(messages)
    ensures forall m :: m in pushes <==> m in messages && !m.silenced && m.push && (m.recipients != [] || m.mass)
    ensures forall m :: m in mass <==> m in pushes && m.mass
  {
    pushes, mass := [], [];
    for n := 0 to |messages|
      invariant pushes == PushesOf(messages[..n]) && mass == MassOf(messages[..n])
      invariant forall m :: m in pushes <==> m in messages[..n] && Pushed(m)
      invariant forall m :: m in mass <==> m in pushes && m.mass
    {
      var m := messages[n];
      assert messages[..n + 1] == messages[..n] + [m] && messages[..n + 1][..n] == messages[..n];
      if m.silenced || !m.push || (m.recipients == [] && !m.mass) {
        continue;
      }
      pushes := pushes + [m];
      if m.mass {
        mass := mass + [m];
      }
    }
    assert messages[..|messages|] == messages;
  }

  lemma {:induction false} PushesAppend(a: seq<Message>, b: seq<Message>)
    ensures PushesOf(a + b) == PushesOf(a) + PushesOf(b)
    ensures MassOf(a + b) == MassOf(a) + MassOf(b)
  {
    if b == [] {
      assert a + b == a;
    } else {
      assert (a + b)[..|a + b| - 1] == a + b[..|b| - 1];
      PushesAppend(a, b[..|b| - 1]);
    }
  }

  /** The pushes of the batches handed on for a key. */
  function PushesSent(handed: seq<Handed>, key: Key): seq<Message> {
    if handed == [] then []
    else
      var last := handed[|handed| - 1];
      PushesSent(handed[..|handed| - 1], key) + if last.key == key then PushesOf(Messages(last.event)) else []
  }

  lemma {:induction false} PushesSentIsSent(handed: seq<Handed>, key: Key)
    ensures PushesSent(handed, key) == PushesOf(Sent(handed, key))
  {
    if handed != [] {
      var last := handed[|handed| - 1];
      PushesSentIsSent(handed[..|handed| - 1], key);
      PushesAppend(Sent(handed[..|handed| - 1], key), if last.key == key then Messages(last.event) else []);
    }
  }
}
