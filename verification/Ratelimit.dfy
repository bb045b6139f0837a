/** The fixed-window rate limiter. One call is one step; the clock is read several
    times within a call and never goes back. Hash keys are taken as they are. */
module Ratelimit {
  const WINDOW := 10000

  datatype Entry = Entry(used: nat, reset: nat)

  /** The clock readings of one call, in milliseconds, in the order they are taken: a
      new entry's reset, the check, the first answer, the deduction, the reset of a new
      window, the final answer. */
  datatype Clock = Clock(create: nat, check: nat, report: nat, deduct: nat, renew: nat, answer: nat) {
    predicate InOrder(since: nat) {
      since <= create <= check <= report <= deduct <= renew <= answer
    }
  }

  datatype Guard = Guard(key: nat, limit: nat, remaining: nat, reset: nat)

  datatype Outcome = Accepted(guard: Guard) | Rejected(guard: Guard)

  function SaturatingSub(a: nat, b: nat): nat {
    if a >= b then a - b else 0
  }

  // ---------------------------------------------------------------------
  // What the times of accepted calls look like

  predicate Ascending(log: seq<nat>) {
    forall i, j :: 0 <= i < j < |log| ==> log[i] <= log[j]
  }

  /** Any call and the one 2 * limit calls later are more than a window apart. */
  ghost predicate Spaced(log: seq<nat>, limit: nat) {
    forall i, j :: 0 <= i && j == i + 2 * limit && j < |log| ==> log[i] + WINDOW < log[j]
  }

  /** The current window began with call `p` and the one before it with call `q`; the
      very first window may have begun before its first call. Calls after the first of a
      window are no more than a window before its end. */
  predicate Windows(log: seq<nat>, limit: nat, e: Entry, q: nat, p: nat) {
    && q <= p <= |log|
    && p - q <= limit
    && |log| - p == e.used <= limit
    && p < |log|
    && log[|log| - 1] <= e.reset
    && (p > 0 ==> log[p] + WINDOW <= e.reset)
    && Late(log, p, e.reset)
    && (q > 0 ==> log[q] + WINDOW < log[p])
  }

  predicate Late(log: seq<nat>, p: nat, reset: nat) {
    forall i :: p < i < |log| ==> reset <= log[i] + WINDOW
  }

  lemma AscendingMore(log: seq<nat>, t: nat)
    requires Ascending(log) && log != [] && log[|log| - 1] <= t
    ensures Ascending(log + [t])
  {
  }

  /** The call 2 * limit calls before a new one was before the window that precedes its own. */
  lemma SpacedMore(log: seq<nat>, limit: nat, e: Entry, q: nat, p: nat, t: nat)
    requires Ascending(log) && Spaced(log, limit) && Windows(log, limit, e, q, p) && log[|log| - 1] <= t
    requires e.used < limit || (e.reset < t && limit > 0)
    ensures Spaced(log + [t], limit)
  {
    var i := |log| - 2 * limit;
    if 0 <= i {
      assert i <= p && (e.used < limit ==> i < q);
      assert log[i] + WINDOW < t;
    }
  }

  ghost predicate Consistent(log: seq<nat>, limit: nat, e: Entry) {
    Ascending(log) && Spaced(log, limit) && exists q, p :: Windows(log, limit, e, q, p)
  }

  /** A further call in the current window. */
  lemma SameWindow(log: seq<nat>, limit: nat, e: Entry, t: nat)
    requires Consistent(log, limit, e) && e.used < limit && log[|log| - 1] <= t <= e.reset <= t + WINDOW
    ensures Consistent(log + [t], limit, Entry(e.used + 1, e.reset))
  {
    var q, p :| Windows(log, limit, e, q, p);
    AscendingMore(log, t);
    SpacedMore(log, limit, e, q, p, t);
    assert Windows(log + [t], limit, Entry(e.used + 1, e.reset), q, p);
  }

  /** A call that opens the next window. */
  lemma NextWindow(log: seq<nat>, limit: nat, e: Entry, t: nat, renewed: nat)
    requires Consistent(log, limit, e) && e.reset < t && t + WINDOW <= renewed && limit > 0
    ensures Consistent(log + [t], limit, Entry(1, renewed))
  {
    var q, p :| Windows(log, limit, e, q, p);
    AscendingMore(log, t);
    SpacedMore(log, limit, e, q, p, t);
    assert Windows(log + [t], limit, Entry(1, renewed), p, |log|);
  }

  function Count(log: seq<nat>, from: int): nat {
    if log == [] then 0
    else Count(log[..|log| - 1], from) + if from <= log[|log| - 1] <= from + WINDOW then 1 else 0
  }

  lemma {:induction false} CountAfter(log: seq<nat>, from: int, k: nat)
    requires k <= |log| && forall i :: 0 <= i < k ==> log[i] < from
    ensures Count(log, from) <= |log| - k
  {
    if log != [] {
      CountAfter(log[..|log| - 1], from, if k < |log| then k else k - 1);
    }
  }

  lemma {:induction false} CountBound(log: seq<nat>, limit: nat, from: int)
    requires Ascending(log) && Spaced(log, limit)
    ensures Count(log, from) <= 2 * limit
  {
    if log != [] {
      var n := |log| - 1;
      if from <= log[n] <= from + WINDOW && n >= 2 * limit {
        assert log[n - 2 * limit] + WINDOW < log[n];
        CountAfter(log, from, n - 2 * limit + 1);
      } else if from <= log[n] <= from + WINDOW {
        CountAfter(log, from, 0);
      } else {
        CountBound(log[..n], limit, from);
      }
    }
  }

  lemma {:induction false} CountRun(log: seq<nat>, from: int)
    requires forall i :: 0 <= i < |log| ==> from <= log[i] <= from + WINDOW
    ensures Count(log, from) == |log|
  {
    if log != [] {
      CountRun(log[..|log| - 1], from);
    }
  }

  // ---------------------------------------------------------------------
  // One call, on values

  /** The entry a call works on. */
  function Found(entries: map<nat, Entry>, key: nat, create: nat): Entry {
    if key in entries then entries[key] else Entry(0, create + WINDOW)
  }

  predicate Admits(e: Entry, limit: nat, check: nat) {
    limit > 0 && (check > e.reset || e.used < limit)
  }

  function Deducted(e: Entry, deduct: nat, renew: nat): Entry {
    if deduct > e.reset then Entry(1, renew + WINDOW) else Entry(e.used + 1, e.reset)
  }

  function LogOf(logs: map<nat, seq<nat>>, key: nat): seq<nat> {
    if key in logs then logs[key] else []
  }

  ghost predicate KeyOk(log: seq<nat>, limit: nat, e: Entry, last: nat) {
    Consistent(log, limit, e) && log[|log| - 1] <= last && e.reset <= last + WINDOW
  }

  ghost predicate AllOk(entries: map<nat, Entry>, logs: map<nat, seq<nat>>, limits: nat -> nat, last: nat) {
    entries.Keys == logs.Keys && forall key <- entries :: KeyOk(logs[key], limits(key), entries[key], last)
  }

  lemma OkLater(log: seq<nat>, limit: nat, e: Entry, last: nat, later: nat)
    requires KeyOk(log, limit, e, last) && last <= later
    ensures KeyOk(log, limit, e, later)
  {
  }

  lemma OkFirst(limit: nat, c: Clock)
    requires limit > 0 && c.InOrder(0)
    ensures KeyOk([c.deduct], limit, Deducted(Entry(0, c.create + WINDOW), c.deduct, c.renew), c.answer)
  {
    assert Windows([c.deduct], limit, Deducted(Entry(0, c.create + WINDOW), c.deduct, c.renew), 0, 0);
  }

  lemma OkNext(log: seq<nat>, limit: nat, e: Entry, last: nat, c: Clock)
    requires KeyOk(log, limit, e, last) && c.InOrder(last) && Admits(e, limit, c.check)
    ensures KeyOk(log + [c.deduct], limit, Deducted(e, c.deduct, c.renew), c.answer)
  {
    if c.deduct > e.reset {
      NextWindow(log, limit, e, c.deduct, c.renew + WINDOW);
    } else {
      SameWindow(log, limit, e, c.deduct);
    }
  }

  lemma OkUpdate(entries: map<nat, Entry>, logs: map<nat, seq<nat>>, limits: nat -> nat, last: nat,
                 key: nat, log: seq<nat>, e: Entry, later: nat)
    requires AllOk(entries, logs, limits, last) && last <= later && KeyOk(log, limits(key), e, later)
    ensures AllOk(entries[key := e], logs[key := log], limits, later)
  {
    var entries' := entries[key := e];
    var logs' := logs[key := log];
    forall k | k in entries'
      ensures KeyOk(logs'[k], limits(k), entries'[k], later)
    {
      if k != key {
        OkLater(logs[k], limits(k), entries[k], last, later);
      }
    }
  }

  lemma AcceptedOk(entries: map<nat, Entry>, logs: map<nat, seq<nat>>, limits: nat -> nat, last: nat, key: nat, c: Clock)
    requires AllOk(entries, logs, limits, last) && c.InOrder(last)
    requires Admits(Found(entries, key, c.create), limits(key), c.check)
    ensures AllOk(entries[key := Deducted(Found(entries, key, c.create), c.deduct, c.renew)],
                  logs[key := LogOf(logs, key) + [c.deduct]], limits, c.answer)
  {
    var e := Deducted(Found(entries, key, c.create), c.deduct, c.renew);
    var log := LogOf(logs, key) + [c.deduct];
    if key in entries {
      OkNext(logs[key], limits(key), entries[key], last, c);
    } else {
      OkFirst(limits(key), c);
      assert log == [c.deduct];
    }
    OkUpdate(entries, logs, limits, last, key, log, e, c.answer);
  }

  /** The entry after an accepted call: one more use of a window that was still open at the
      deduction, or the first of a new one of 10,000 ms; the window of a new key is reckoned
      from the moment its entry was made. */
  predicate Spent(entries: map<nat, Entry>, key: nat, c: Clock, e: Entry) {
    var reset := if key in entries then entries[key].reset else c.create + 10000;
    if c.deduct > reset then e.used == 1 && e.reset == c.renew + 10000
    else e.reset == reset && e.used == if key in entries then entries[key].used + 1 else 1
  }

  /** The limit's worth of calls was accepted, all but the first of them in the last 10,000 ms. */
  ghost predicate Exhausted(log: seq<nat>, limit: nat, now: nat) {
    limit <= |log| && forall i :: |log| - limit < i < |log| ==> log[i] <= now <= log[i] + 10000
  }

  lemma FullWindow(log: seq<nat>, limit: nat, e: Entry, now: nat)
    requires Consistent(log, limit, e) && e.used == limit && log[|log| - 1] <= now <= e.reset
    ensures Exhausted(log, limit, now)
  {
    var q, p :| Windows(log, limit, e, q, p);
    forall i | |log| - limit < i < |log|
      ensures log[i] <= now <= log[i] + 10000
    {
      assert log[i] <= log[|log| - 1];
    }
  }

  lemma RefusedOk(entries: map<nat, Entry>, logs: map<nat, seq<nat>>, limits: nat -> nat, last: nat, key: nat, c: Clock)
    requires AllOk(entries, logs, limits, last) && c.InOrder(last)
    requires !Admits(Found(entries, key, c.create), limits(key), c.check)
    ensures AllOk(entries, logs, limits, c.answer)
    ensures limits(key) > 0 ==> Exhausted(LogOf(logs, key), limits(key), c.check)
  {
    forall k | k in entries
      ensures KeyOk(logs[k], limits(k), entries[k], c.answer)
    {
      OkLater(logs[k], limits(k), entries[k], last, c.answer);
    }
    if limits(key) > 0 {
      assert KeyOk(logs[key], limits(key), entries[key], last);
      FullWindow(logs[key], limits(key), entries[key], c.check);
    }
  }

  /** What is answered as the time to the reset. */
  predicate TimeLeft(reset: nat, now: nat, answered: nat) {
    (now <= reset ==> now + answered == reset) && (now > reset ==> answered == 0)
  }

  // ---------------------------------------------------------------------
  // The limiter

  class Ratelimits {
    var entries: map<nat, Entry>
    /** Each key has one limit. */
    const limits: nat -> nat
    /** The times at which calls were accepted, for each key, and the last reading. */
    ghost var logs: map<nat, seq<nat>>
    ghost var last: nat

    ghost predicate Valid()
      reads this
    {
      AllOk(entries, logs, limits, last)
    }

    ghost function Log(key: nat): seq<nat>
      reads this
    {
      LogOf(logs, key)
    }

    constructor (limits: nat -> nat)
      ensures Valid() && entries == map[] && logs == map[] && last == 0 && this.limits == limits
    {
      this.limits := limits;
      entries, logs, last := map[], map[], 0;
    }

    /** What is left of the limit. */
    method GetRemaining(entry: Entry, limit: nat, check: nat) returns (remaining: nat)
      requires entry.used <= limit
      ensures remaining <= limit && (remaining > 0 <==> Admits(entry, limit, check))
      ensures check <= entry.reset ==> remaining + entry.used == limit
      ensures check > entry.reset ==> remaining == limit
    {
      if check > entry.reset {
        remaining := limit;
      } else {
        remaining := limit - entry.used;
      }
    }

    method Deduct(entry: Entry, deduct: nat, renew: nat) returns (entry': Entry)
      ensures entry' == Deducted(entry, deduct, renew)
    {
      entry' := entry;
      if deduct > entry'.reset {
        entry' := Entry(1, renew + WINDOW);
      } else {
        entry' := entry'.(used := entry'.used + 1);
      }
    }

    /** A call is accepted exactly when the limit is not zero and the key is new, its
        window is over, or some of the limit is left. An accepted call is logged at the
        time of its deduction; a rejected one changes nothing, and comes after the limit's
        worth of accepted calls, all but the first of them in the last 10,000 ms. The
        remaining count
        answered is that after the call, as long as the window did not end within it. */
    method From(key: nat, limit: nat, c: Clock) returns (r: Outcome)
      requires Valid() && limit == limits(key) && c.InOrder(last)
      modifies this
      ensures Valid() && last == c.answer
      ensures r.guard.key == key && r.guard.limit == limit
      ensures r.Accepted? <==>
                limit > 0 && (key in old(entries) ==> c.check > old(entries)[key].reset || old(entries)[key].used < limit)
      ensures r.Accepted? ==>
                && key in entries && entries == old(entries)[key := entries[key]] && Spent(old(entries), key, c, entries[key])
                && logs == old(logs[key := Log(key) + [c.deduct]])
                && TimeLeft(entries[key].reset, c.answer, r.guard.reset)
                && (c.deduct <= old(Found(entries, key, c.create)).reset || old(Found(entries, key, c.create)).reset < c.check ==>
                      r.guard.remaining + entries[key].used == limit)
      ensures r.Rejected? ==>
                && entries == old(entries) && logs == old(logs) && r.guard.remaining == 0
                && TimeLeft(if key in entries then entries[key].reset else c.create + 10000, c.report, r.guard.reset)
                && (limit > 0 ==> Exhausted(Log(key), limit, c.check))
    {
      var entry := Found(entries, key, c.create);
      assert key in entries ==> KeyOk(logs[key], limits(key), entries[key], last);
      var remaining := GetRemaining(entry, limit, c.check);
      var guard := Guard(key, limit, remaining, SaturatingSub(entry.reset, c.report));
      if remaining == 0 {
        RefusedOk(entries, logs, limits, last, key, c);
        last := c.answer;
        return Rejected(guard);
      }
      AcceptedOk(entries, logs, limits, last, key, c);
      entry := Deduct(entry, c.deduct, c.renew);
      logs := logs[key := Log(key) + [c.deduct]];
      entries := entries[key := entry];
      last := c.answer;
      guard := guard.(remaining := guard.remaining - 1, reset := SaturatingSub(entry.reset, c.answer));
      return Accepted(guard);
    }

    /** No key ever uses more than its limit, so the subtraction above cannot wrap. */
    lemma UsedWithinLimit(key: nat)
      requires Valid() && key in entries
      ensures entries[key].used <= limits(key)
    {
      assert KeyOk(logs[key], limits(key), entries[key], last);
    }

    /** Any stretch of 10,000 ms holds at most twice the limit of accepted calls. */
    lemma AtMostTwiceTheLimit(key: nat, from: int)
      requires Valid()
      ensures Count(Log(key), from) <= 2 * limits(key)
    {
      if key in entries {
        assert KeyOk(logs[key], limits(key), entries[key], last);
        CountBound(logs[key], limits(key), from);
      }
    }
  }

  predicate AllAt(log: seq<nat>, t: nat) {
    forall i :: 0 <= i < |log| ==> log[i] == t
  }

  function Instant(t: nat): Clock {
    Clock(t, t, t, t, t, t)
  }

  /** One more call in a window with room. */
  method Again(r: Ratelimits, limit: nat, used: nat, reset: nat, t: nat)
    requires r.Valid() && r.limits(0) == limit && r.last == t <= reset && used < limit
    requires 0 in r.entries && r.entries[0] == Entry(used, reset)
    modifies r
    ensures r.Valid() && r.last == t
    ensures 0 in r.entries && r.entries[0] == Entry(used + 1, reset)
    ensures r.Log(0) == old(r.Log(0)) + [t]
  {
    var _ := r.From(0, limit, Instant(t));
  }

  /** Calls at one instant until the window is full. */
  method Fill(r: Ratelimits, limit: nat, reset: nat, t: nat) returns (ghost tail: seq<nat>)
    requires r.Valid() && r.limits(0) == limit && r.last == t <= reset && limit > 0
    requires 0 in r.entries && r.entries[0] == Entry(1, reset)
    modifies r
    ensures r.Valid() && r.last == t
    ensures 0 in r.entries && r.entries[0] == Entry(limit, reset)
    ensures r.Log(0) == old(r.Log(0)) + tail && |tail| == limit - 1 && AllAt(tail, t)
  {
    var i := 1;
    tail := [];
    ghost var log := r.Log(0);
    while i < limit
      invariant i <= limit && r.Valid() && r.last == t
      invariant 0 in r.entries && r.entries[0] == Entry(i, reset)
      invariant r.Log(0) == log + tail && |tail| == i - 1 && AllAt(tail, t)
    {
      Again(r, limit, i, reset, t);
      assert log + tail + [t] == log + (tail + [t]);
      tail := tail + [t];
      i := i + 1;
    }
  }

  /** A first call that is slow to deduct opens a window that is about to end. */
  method OpenLate(limit: nat) returns (r: Ratelimits)
    requires limit > 0
    ensures fresh(r) && r.Valid() && r.limits(0) == limit && r.last == WINDOW
    ensures 0 in r.entries && r.entries[0] == Entry(1, WINDOW) && r.Log(0) == [WINDOW]
  {
    r := new Ratelimits(_ => limit);
    var _ := r.From(0, limit, Clock(0, 0, 0, WINDOW, WINDOW, WINDOW));
  }

  method OpenNext(r: Ratelimits, limit: nat)
    requires r.Valid() && r.limits(0) == limit && r.last == WINDOW && limit > 0
    requires 0 in r.entries && r.entries[0] == Entry(limit, WINDOW)
    modifies r
    ensures r.Valid() && r.last == WINDOW + 1
    ensures 0 in r.entries && r.entries[0] == Entry(1, 2 * WINDOW + 1) && r.Log(0) == old(r.Log(0)) + [WINDOW + 1]
  {
    var _ := r.From(0, limit, Instant(WINDOW + 1));
  }

  /** The bound is reached, for every limit: a window about to end is filled, and the
      next one right after it. */
  method TwiceTheLimit(limit: nat) returns (r: Ratelimits)
    requires limit > 0
    ensures fresh(r) && r.Valid() && r.limits(0) == limit && Count(r.Log(0), WINDOW) == 2 * limit
  {
    r := OpenLate(limit);
    ghost var first := Fill(r, limit, WINDOW, WINDOW);
    OpenNext(r, limit);
    ghost var second := Fill(r, limit, 2 * WINDOW + 1, WINDOW + 1);
    CountBurst([WINDOW], first, second, r.Log(0));
  }

  lemma CountBurst(opening: seq<nat>, first: seq<nat>, second: seq<nat>, log: seq<nat>)
    requires opening == [WINDOW] && AllAt(first, WINDOW) && AllAt(second, WINDOW + 1)
    requires log == opening + first + [WINDOW + 1] + second
    ensures Count(log, WINDOW) == |first| + |second| + 2
  {
    CountRun(log, WINDOW);
  }
}
