/** Presence sessions across regions: Redis sets of sessions by user, of online users,
    and of sessions by region. One call is one step, and session IDs are fresh. */
module Presence {
  import opened Entities

  type Region = string

  datatype Entry = Entry(user: Id, session: nat)

  type Sessions = map<Id, set<nat>>

  type Regions = map<Region, set<Entry>>

  // ---------------------------------------------------------------------
  // Redis sets

  /** A missing key is the empty set. */
  function Members<K, T>(sets: map<K, set<T>>, key: K): set<T> {
    if key in sets then sets[key] else {}
  }

  /** Redis removes a set with its last member. */
  function Store<K, T>(sets: map<K, set<T>>, key: K, value: set<T>): map<K, set<T>> {
    if value == {} then map k <- sets | k != key :: sets[k] else sets[key := value]
  }

  ghost predicate NoEmptySets<K, T>(sets: map<K, set<T>>) {
    forall k <- sets :: sets[k] != {}
  }

  lemma StoreMembers<K(!new), T>(sets: map<K, set<T>>, key: K, value: set<T>)
    requires NoEmptySets(sets)
    ensures NoEmptySets(Store(sets, key, value))
    ensures Members(Store(sets, key, value), key) == value
    ensures forall k :: k != key ==> Members(Store(sets, key, value), k) == Members(sets, k)
    ensures key in Store(sets, key, value) <==> value != {}
    ensures forall k :: k != key ==> (k in Store(sets, key, value) <==> k in sets)
  {
  }

  predicate Has(sessions: Sessions, user: Id, session: nat) {
    session in Members(sessions, user)
  }

  predicate InRegion(regions: Regions, r: Region, e: Entry) {
    e in Members(regions, r)
  }

  // ---------------------------------------------------------------------
  // Sessions and regions agree

  ghost predicate SomeRegion(regions: Regions, e: Entry) {
    exists r :: InRegion(regions, r, e)
  }

  /** A user's sessions are those in the regions, and no session is in two. */
  ghost predicate Agree(sessions: Sessions, regions: Regions) {
    && (forall u, x :: Has(sessions, u, x) <==> SomeRegion(regions, Entry(u, x)))
    && (forall r, q, e :: InRegion(regions, r, e) && InRegion(regions, q, e) ==> r == q)
  }

  lemma AgreeCreate(sessions: Sessions, regions: Regions, region: Region, user: Id, session: nat)
    requires Agree(sessions, regions) && NoEmptySets(sessions) && NoEmptySets(regions) && !Has(sessions, user, session)
    ensures var e := Entry(user, session);
            Agree(Store(sessions, user, Members(sessions, user) + {session}),
                  Store(regions, region, Members(regions, region) + {e}))
  {
    var e := Entry(user, session);
    var sessions' := Store(sessions, user, Members(sessions, user) + {session});
    var regions' := Store(regions, region, Members(regions, region) + {e});
    StoreMembers(sessions, user, Members(sessions, user) + {session});
    StoreMembers(regions, region, Members(regions, region) + {e});
    assert !SomeRegion(regions, e);
    forall u, x
      ensures Has(sessions', u, x) <==> SomeRegion(regions', Entry(u, x))
    {
      if u == user && x == session {
        assert InRegion(regions', region, e);
      } else {
        assert Has(sessions', u, x) <==> Has(sessions, u, x);
        assert forall r :: InRegion(regions', r, Entry(u, x)) <==> InRegion(regions, r, Entry(u, x));
      }
    }
    forall r, q, d | InRegion(regions', r, d) && InRegion(regions', q, d)
      ensures r == q
    {
      assert d != e ==> InRegion(regions, r, d) && InRegion(regions, q, d);
      assert !InRegion(regions, r, e) && !InRegion(regions, q, e);
    }
  }

  lemma AgreeDelete(sessions: Sessions, regions: Regions, region: Region, user: Id, session: nat)
    requires Agree(sessions, regions) && NoEmptySets(sessions) && NoEmptySets(regions)
    requires forall r :: InRegion(regions, r, Entry(user, session)) ==> r == region
    ensures var e := Entry(user, session);
            Agree(Store(sessions, user, Members(sessions, user) - {session}),
                  Store(regions, region, Members(regions, region) - {e}))
  {
    var e := Entry(user, session);
    var sessions' := Store(sessions, user, Members(sessions, user) - {session});
    var regions' := Store(regions, region, Members(regions, region) - {e});
    StoreMembers(sessions, user, Members(sessions, user) - {session});
    StoreMembers(regions, region, Members(regions, region) - {e});
    forall r
      ensures !InRegion(regions', r, e)
    {
      assert InRegion(regions, r, e) ==> r == region;
    }
    forall u, x
      ensures Has(sessions', u, x) <==> SomeRegion(regions', Entry(u, x))
    {
      if !(u == user && x == session) {
        assert Has(sessions', u, x) <==> Has(sessions, u, x);
        assert forall r :: InRegion(regions', r, Entry(u, x)) <==> InRegion(regions, r, Entry(u, x));
      }
    }
    forall r, q, d | InRegion(regions', r, d) && InRegion(regions', q, d)
      ensures r == q
    {
      assert InRegion(regions, r, d) && InRegion(regions, q, d);
    }
  }

  /** Without the sessions of one region, and without that region, they still agree. */
  lemma AgreeClear(sessions: Sessions, regions: Regions, region: Region, sessions': Sessions)
    requires Agree(sessions, regions)
    requires forall u, x :: Has(sessions', u, x) <==> Has(sessions, u, x) && !InRegion(regions, region, Entry(u, x))
    ensures Agree(sessions', map r <- regions | r != region :: regions[r])
  {
    var regions' := map r <- regions | r != region :: regions[r];
    assert forall r, e :: InRegion(regions', r, e) <==> r != region && InRegion(regions, r, e);
    forall u, x
      ensures Has(sessions', u, x) <==> SomeRegion(regions', Entry(u, x))
    {
      if Has(sessions', u, x) {
        var r :| InRegion(regions, r, Entry(u, x));
        assert InRegion(regions', r, Entry(u, x));
      }
      if r :| InRegion(regions', r, Entry(u, x)) {
        assert InRegion(regions, r, Entry(u, x));
        assert SomeRegion(regions, Entry(u, x));
      }
    }
  }

  // ---------------------------------------------------------------------
  // What is announced

  /** What a call tells its caller to announce about a user. */
  datatype Flag = Came | Went

  /** Turns: came, went, came, … */
  predicate Alternates(log: seq<Flag>) {
    forall i :: 0 <= i < |log| ==> log[i] == if i % 2 == 0 then Came else Went
  }

  /** The announcements leave the user online. */
  predicate EndsOnline(log: seq<Flag>) {
    log != [] && log[|log| - 1].Came?
  }

  function LogOf(logs: map<Id, seq<Flag>>, user: Id): seq<Flag> {
    if user in logs then logs[user] else []
  }

  /** Everyone's announcements alternate and say who is online. */
  ghost predicate LogsOk(logs: map<Id, seq<Flag>>, sessions: Sessions) {
    forall u :: Alternates(LogOf(logs, u)) && (EndsOnline(LogOf(logs, u)) <==> u in sessions)
  }

  lemma NextTurn(log: seq<Flag>, flag: Flag)
    requires Alternates(log) && (EndsOnline(log) <==> flag.Went?)
    ensures Alternates(log + [flag]) && (EndsOnline(log + [flag]) <==> flag.Came?)
  {
    var n := |log|;
    if log != [] {
      assert log[n - 1] == if (n - 1) % 2 == 0 then Came else Went;
    }
    assert EndsOnline(log) <==> n % 2 == 1;
    assert flag == if n % 2 == 0 then Came else Went;
  }

  /** Announcing a departure of somebody who is not there breaks the turns. */
  lemma WrongTurn(log: seq<Flag>)
    requires Alternates(log) && !EndsOnline(log)
    ensures !Alternates(log + [Went])
  {
    var n := |log|;
    if log != [] {
      assert log[n - 1] == if (n - 1) % 2 == 0 then Came else Went;
    }
    assert (log + [Went])[n] == Went;
  }

  /** A departure keeps the announcements right exactly when the user was there. */
  lemma DepartureExactly(logs: map<Id, seq<Flag>>, sessions: Sessions, sessions': Sessions, user: Id)
    requires LogsOk(logs, sessions) && user !in sessions'
    requires forall u :: u != user ==> (u in sessions' <==> u in sessions)
    ensures LogsOk(logs[user := LogOf(logs, user) + [Went]], sessions') <==> user in sessions
  {
    if user in sessions {
      Announce(logs, sessions, sessions', user, Went);
    } else {
      WrongTurn(LogOf(logs, user));
      assert LogOf(logs[user := LogOf(logs, user) + [Went]], user) == LogOf(logs, user) + [Went];
    }
  }

  /** The announcements after a deletion. */
  function AfterDeletion(logs: map<Id, seq<Flag>>, user: Id, last: bool): map<Id, seq<Flag>> {
    if last then logs[user := LogOf(logs, user) + [Went]] else logs
  }

  lemma DeletionExactly(logs: map<Id, seq<Flag>>, sessions: Sessions, sessions': Sessions, user: Id)
    requires LogsOk(logs, sessions) && sessions'.Keys <= sessions.Keys
    requires forall u :: u != user ==> (u in sessions' <==> u in sessions)
    ensures LogsOk(AfterDeletion(logs, user, user !in sessions'), sessions') <==> user in sessions
  {
    if user !in sessions' {
      DepartureExactly(logs, sessions, sessions', user);
    }
  }

  /** Sessions that go unannounced keep the announcements right exactly when nobody loses
      their last one. */
  lemma SilenceExactly(logs: map<Id, seq<Flag>>, sessions: Sessions, sessions': Sessions)
    requires LogsOk(logs, sessions) && sessions'.Keys <= sessions.Keys
    ensures LogsOk(logs, sessions') <==> forall u <- sessions :: u in sessions'
  {
    if u :| u in sessions && u !in sessions' {
      assert EndsOnline(LogOf(logs, u));
    }
  }

  lemma Announce(logs: map<Id, seq<Flag>>, sessions: Sessions, sessions': Sessions, user: Id, flag: Flag)
    requires LogsOk(logs, sessions) && (user in sessions <==> flag.Went?) && (user in sessions' <==> flag.Came?)
    requires forall u :: u != user ==> (u in sessions' <==> u in sessions)
    ensures LogsOk(logs[user := LogOf(logs, user) + [flag]], sessions')
  {
    NextTurn(LogOf(logs, user), flag);
    var logs' := logs[user := LogOf(logs, user) + [flag]];
    forall u
      ensures Alternates(LogOf(logs', u)) && (EndsOnline(LogOf(logs', u)) <==> u in sessions')
    {
      if u != user {
        assert LogOf(logs', u) == LogOf(logs, u);
      } else {
        assert LogOf(logs', u) == LogOf(logs, user) + [flag];
      }
    }
  }

  lemma FewerSessions(sessions: Sessions, sessions': Sessions)
    requires NoEmptySets(sessions') && forall u, x :: Has(sessions', u, x) ==> Has(sessions, u, x)
    ensures sessions'.Keys <= sessions.Keys
  {
    forall u | u in sessions'
      ensures u in sessions
    {
      var x :| x in sessions'[u];
      assert Has(sessions', u, x);
    }
  }

  // ---------------------------------------------------------------------
  // The calls

  class Redis {
    var sessions: Sessions
    var online: set<Id>
    var regions: Regions
    /** What has been announced of each user, and whether every call so far met its
        condition: a deletion was for a user with a session, and a cleared region took
        nobody's last one. */
    ghost var logs: map<Id, seq<Flag>>
    ghost var regular: bool

    ghost predicate Valid()
      reads this
    {
      && Agree(sessions, regions)
      && NoEmptySets(sessions) && NoEmptySets(regions)
      && (forall u :: u in online <==> u in sessions)
      && (regular ==> LogsOk(logs, sessions))
    }

    constructor ()
      ensures Valid() && sessions == map[] && regions == map[] && logs == map[] && regular
    {
      sessions, online, regions, logs, regular := map[], {}, map[], map[], true;
    }

    /** The session ID keeps the flag in its lowest bit. */
    static function SessionId(random: nat, flags: nat): (x: nat)
      ensures x % 2 == flags % 2 && x / 2 == random / 2
    {
      random - random % 2 + flags % 2
    }

    /** The first session of a user is announced. */
    method CreateSession(region: Region, user: Id, random: nat, flags: nat) returns (first: bool, session: nat)
      requires Valid() && !Has(sessions, user, SessionId(random, flags))
      modifies this
      ensures Valid() && session == SessionId(random, flags) && regular == old(regular)
      ensures first <==> user !in old(sessions)
      ensures sessions == old(Store(sessions, user, Members(sessions, user) + {session}))
      ensures regions == old(Store(regions, region, Members(regions, region) + {Entry(user, session)}))
      ensures logs == if first then old(logs)[user := LogOf(old(logs), user) + [Came]] else old(logs)
    {
      first := Members(sessions, user) == {};
      session := SessionId(random, flags);
      StoreMembers(sessions, user, Members(sessions, user) + {session});
      StoreMembers(regions, region, Members(regions, region) + {Entry(user, session)});
      AgreeCreate(sessions, regions, region, user, session);
      ghost var before := sessions;
      sessions := Store(sessions, user, Members(sessions, user) + {session});
      online := online + {user};
      regions := Store(regions, region, Members(regions, region) + {Entry(user, session)});
      if first {
        if regular {
          Announce(logs, before, sessions, user, Came);
        }
        logs := logs[user := LogOf(logs, user) + [Came]];
      }
    }

    /** Drop a session and, with the last one, the user from the online set; `true` if
        none is left. */
    method DropSession(user: Id, session: nat) returns (last: bool)
      requires NoEmptySets(sessions)
      modifies this`sessions, this`online
      ensures NoEmptySets(sessions)
      ensures sessions == old(Store(sessions, user, Members(sessions, user) - {session}))
      ensures last <==> user !in sessions
      ensures online == if last then old(online) - {user} else old(online)
    {
      StoreMembers(sessions, user, Members(sessions, user) - {session});
      sessions := Store(sessions, user, Members(sessions, user) - {session});
      last := Members(sessions, user) == {};
      if last {
        online := online - {user};
      }
    }

    /** Delete a session of this region, or one that is nowhere. The last session of a
        user is announced. */
    method DeleteSession(region: Region, user: Id, session: nat) returns (last: bool)
      requires Valid() && forall r :: InRegion(regions, r, Entry(user, session)) ==> r == region
      modifies this
      ensures Valid() && regular == old(regular && user in sessions)
      ensures old(LogsOk(logs, sessions)) ==> (LogsOk(logs, sessions) <==> user in old(sessions))
      ensures sessions == old(Store(sessions, user, Members(sessions, user) - {session}))
      ensures regions == old(Store(regions, region, Members(regions, region) - {Entry(user, session)}))
      ensures last <==> user !in sessions
      ensures logs == AfterDeletion(old(logs), user, last)
    {
      AgreeDelete(sessions, regions, region, user, session);
      StoreMembers(sessions, user, Members(sessions, user) - {session});
      StoreMembers(regions, region, Members(regions, region) - {Entry(user, session)});
      ghost var before := sessions;
      regular := regular && user in sessions;
      last := DropSession(user, session);
      regions := Store(regions, region, Members(regions, region) - {Entry(user, session)});
      if LogsOk(logs, before) {
        DeletionExactly(logs, before, sessions, user);
      }
      logs := AfterDeletion(logs, user, last);
    }

    /** A region that has gone down loses its own sessions, and nobody else's. */
    method ClearRegion(region: Region)
      requires Valid()
      modifies this
      ensures Valid() && regular == (old(regular) && forall u <- old(sessions) :: u in sessions)
      ensures old(LogsOk(logs, sessions)) ==>
                (LogsOk(logs, sessions) <==> forall u <- old(sessions) :: u in sessions)
      ensures logs == old(logs)
      ensures forall u, x :: Has(sessions, u, x) <==>
                             old(Has(sessions, u, x)) && !InRegion(old(regions), region, Entry(u, x))
      ensures regions == map r <- old(regions) | r != region :: old(regions)[r]
    {
      ghost var before := sessions;
      var entries := Members(regions, region);
      DropAll(entries);
      FewerSessions(before, sessions);
      if LogsOk(logs, before) {
        SilenceExactly(logs, before, sessions);
      }
      regular := regular && forall u <- before :: u in sessions;
      AgreeClear(before, regions, region, sessions);
      regions := map r <- regions | r != region :: regions[r];
    }

    method DropAll(entries: set<Entry>)
      requires NoEmptySets(sessions) && forall u :: u in online <==> u in sessions
      modifies this`sessions, this`online
      ensures NoEmptySets(sessions) && forall u :: u in online <==> u in sessions
      ensures forall u, x :: Has(sessions, u, x) <==> old(Has(sessions, u, x)) && Entry(u, x) !in entries
    {
      var left := entries;
      while left != {}
        invariant left <= entries && NoEmptySets(sessions)
        invariant forall u :: u in online <==> u in sessions
        invariant forall u, x :: Has(sessions, u, x) <==>
                                 old(Has(sessions, u, x)) && !(Entry(u, x) in entries && Entry(u, x) !in left)
        decreases left
      {
        var e :| e in left;
        DropEntry(e);
        left := left - {e};
      }
    }

    method DropEntry(e: Entry)
      requires NoEmptySets(sessions) && forall u :: u in online <==> u in sessions
      modifies this`sessions, this`online
      ensures NoEmptySets(sessions) && forall u :: u in online <==> u in sessions
      ensures forall u, x :: Has(sessions, u, x) <==> old(Has(sessions, u, x)) && Entry(u, x) != e
    {
      StoreMembers(sessions, e.user, Members(sessions, e.user) - {e.session});
      var _ := DropSession(e.user, e.session);
    }

    /** Whether the user's set of sessions exists. */
    method IsOnline(user: Id) returns (r: bool)
      requires Valid()
      ensures r <==> exists x :: Has(sessions, user, x)
    {
      r := user in sessions;
      if r {
        var x :| x in sessions[user];
        assert Has(sessions, user, x);
      }
    }

    /** Both ways of asking for many users at once find exactly the users who have a
        session: testing each against the online set, with a lone user asked for by
        their sessions, or intersecting with the whole online set. */
    method FilterOnline(users: seq<Id>, patched: bool) returns (found: set<Id>)
      requires Valid()
      ensures forall u :: u in found <==> u in users && exists x :: Has(sessions, u, x)
    {
      OnlineMeansSession();
      found := {};
      if users == [] {
        return;
      }
      if !patched {
        found := online * set u <- users;
      } else if |users| == 1 {
        var r := IsOnline(users[0]);
        if r {
          found := {users[0]};
        }
      } else {
        for i := 0 to |users|
          invariant found == set u <- users[..i] | u in online
        {
          if users[i] in online {
            found := found + {users[i]};
          }
        }
      }
    }

    lemma OnlineMeansSession()
      requires Valid()
      ensures forall u :: u in online <==> exists x :: Has(sessions, u, x)
    {
      forall u | u in online
        ensures exists x :: Has(sessions, u, x)
      {
        var x :| x in sessions[u];
        assert Has(sessions, u, x);
      }
    }

    /** The online set is the users with a session in some region. */
    lemma OnlineExactly(user: Id)
      requires Valid()
      ensures user in online <==> exists r, x :: InRegion(regions, r, Entry(user, x))
    {
      OnlineMeansSession();
      if user in online {
        var x :| Has(sessions, user, x);
        var r :| InRegion(regions, r, Entry(user, x));
      }
      if r, x :| InRegion(regions, r, Entry(user, x)) {
        assert SomeRegion(regions, Entry(user, x));
        assert Has(sessions, user, x);
      }
    }

    /** While every call meets its condition, what is announced of a user is "came" and
        "went" in turns, the last one being right. */
    lemma FlagsAlternate(user: Id)
      requires Valid() && regular
      ensures Alternates(LogOf(logs, user)) && (EndsOnline(LogOf(logs, user)) <==> user in online)
    {
    }
  }

  /** Deleting a session that is not there announces a departure a second time. */
  method DeletingTwiceAnnouncesTwice() returns (r: Redis)
    ensures LogOf(r.logs, "user") == [Came, Went, Went]
  {
    r := new Redis();
    var _, session := r.CreateSession("region0", "user", 0, 0);
    var _ := r.DeleteSession("region0", "user", session);
    var _ := r.DeleteSession("region0", "user", session);
  }
}
