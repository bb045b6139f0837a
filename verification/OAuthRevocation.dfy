/** Revoking an application ends its tokens for good. */
module OAuthRevocation {
  import opened Entities
  import opened Compare
  import opened OAuth
  import opened OAuthFamilies
  import opened OAuthProvenance

  /** A code exchange, past its look at the application, that its code will satisfy. */
  predicate Succeeds(h: Hash, s: Store, f: Flight) {
    && f.Exchanging? && OpenCode(s, f.client, f.code)
    && MayExchange(h, s.codes[f.code], f.uri, f.verifier)
  }

  /** A request that can still lead to a token of the client without asking whether
      the application is revoked. */
  predicate Pending(h: Hash, s: Store, f: Flight, client: Id) {
    (Succeeds(h, s, f) && f.client == client) || (Rotating(f) && f.issue.client == client)
  }

  ghost predicate Quiet(h: Hash, s: Store, client: Id) {
    forall p <- s.flights :: !Pending(h, s, s.flights[p], client)
  }

  /** The code that an exchange of the client names has been drawn: nobody names a
      random value before it exists. */
  ghost predicate Named(s: Store, client: Id) {
    forall p <- s.flights :: s.flights[p].Exchanging? && s.flights[p].client == client ==> s.flights[p].code in s.drawn
  }

  ghost predicate NoLiveAccess(s: Store, client: Id) {
    forall t :: LiveAccess(s, t) ==> s.access[t].grant.client != client
  }

  ghost predicate NoLiveRefresh(s: Store, client: Id) {
    forall t :: LiveRefresh(s, t) ==> s.refresh[t].grant.client != client
  }

  predicate AppRevoked(s: Store, client: Id) {
    client in s.apps && client in s.drawn && s.apps[client].revoked
  }

  /** The application is revoked, has no live token, and nothing is on its way. */
  ghost predicate Dead(h: Hash, s: Store, client: Id) {
    && AppRevoked(s, client) && NoLiveAccess(s, client) && NoLiveRefresh(s, client)
    && Quiet(h, s, client) && Named(s, client)
  }

  lemma AppStaysRevoked(h: Hash, s: Store, a: Action, client: Id)
    requires Enabled(h, s, a) && AppRevoked(s, client)
    ensures AppRevoked(Do(h, s, a), client)
  {
  }

  lemma TimePasses(h: Hash, s: Store, a: Action)
    requires Enabled(h, s, a)
    ensures Do(h, s, a).now >= s.now
  {
  }

  /** A token that is live was live before or has just been stored. */
  lemma AccessLiveBefore(h: Hash, s: Store, a: Action, t: Secret)
    requires Enabled(h, s, a) && LiveAccess(Do(h, s, a), t) && !(a.StoreAccess? && t == a.value)
    ensures t in s.access && !s.access[t].revoked && s.access[t].expires == Do(h, s, a).access[t].expires
    ensures s.access[t].grant == Do(h, s, a).access[t].grant
  {
  }

  lemma RefreshLiveBefore(h: Hash, s: Store, a: Action, t: Secret)
    requires Enabled(h, s, a) && LiveRefresh(Do(h, s, a), t) && !(a.StoreRefresh? && t == a.value)
    ensures t in s.refresh && !s.refresh[t].revoked && s.refresh[t].expires == Do(h, s, a).refresh[t].expires
    ensures s.refresh[t].grant == Do(h, s, a).refresh[t].grant
  {
  }

  lemma StoredAccess(h: Hash, s: Store, a: Action)
    requires Enabled(h, s, a) && a.StoreAccess?
    ensures Rotating(s.flights[a.pid]) && Do(h, s, a).access[a.value].grant == s.flights[a.pid].issue
  {
  }

  lemma StoredRefresh(h: Hash, s: Store, a: Action)
    requires Enabled(h, s, a) && a.StoreRefresh?
    ensures Rotating(s.flights[a.pid]) && Do(h, s, a).refresh[a.value].grant == s.flights[a.pid].issue
  {
  }

  lemma DeadAccess(h: Hash, s: Store, a: Action, client: Id, t: Secret)
    requires Dead(h, s, client) && Enabled(h, s, a) && LiveAccess(Do(h, s, a), t)
    ensures Do(h, s, a).access[t].grant.client != client
  {
    if a.StoreAccess? && t == a.value {
      assert !Pending(h, s, s.flights[a.pid], client);
      StoredAccess(h, s, a);
    } else {
      AccessLiveBefore(h, s, a, t);
      TimePasses(h, s, a);
      assert LiveAccess(s, t);
    }
  }

  lemma DeadRefresh(h: Hash, s: Store, a: Action, client: Id, t: Secret)
    requires Dead(h, s, client) && Enabled(h, s, a) && LiveRefresh(Do(h, s, a), t)
    ensures Do(h, s, a).refresh[t].grant.client != client
  {
    if a.StoreRefresh? && t == a.value {
      assert !Pending(h, s, s.flights[a.pid], client);
      StoredRefresh(h, s, a);
    } else {
      RefreshLiveBefore(h, s, a, t);
      TimePasses(h, s, a);
      assert LiveRefresh(s, t);
    }
  }

  lemma NewCodeOnlyStored(h: Hash, s: Store, a: Action, k: Secret)
    requires Enabled(h, s, a) && k in s.drawn && k in Do(h, s, a).codes
    ensures k in s.codes && Do(h, s, a).now >= s.now
  {
  }

  /** An exchange that cannot succeed stays so: a code is never altered but for being
      used, and a drawn value never becomes a new code. */
  lemma HopelessStays(h: Hash, s: Store, a: Action, f: Flight)
    requires Enabled(h, s, a) && f.Exchanging? && f.code in s.drawn && !Succeeds(h, s, f)
    ensures !Succeeds(h, Do(h, s, a), f)
  {
    if f.code in Do(h, s, a).codes {
      NewCodeOnlyStored(h, s, a, f.code);
      CodeKept(h, s, a, f.code);
    }
  }

  lemma ExchangingBefore(h: Hash, s: Store, a: Action, p: nat)
    requires Enabled(h, s, a) && p in Do(h, s, a).flights && Do(h, s, a).flights[p].Exchanging?
    ensures var f := Do(h, s, a).flights[p];
            || (p in s.flights && s.flights[p] == f)
            || (f.client in s.apps && !s.apps[f.client].revoked)
  {
  }

  lemma RotatingFrom(h: Hash, s: Store, a: Action, p: nat)
    requires Enabled(h, s, a) && p in Do(h, s, a).flights && Rotating(Do(h, s, a).flights[p])
    ensures var f := Do(h, s, a).flights[p];
            || (p in s.flights && Rotating(s.flights[p]) && s.flights[p].issue == f.issue)
            || (p in s.flights && Succeeds(h, s, s.flights[p]) && s.flights[p].client == f.issue.client)
            || (p in s.flights && s.flights[p].Refreshing? && OpenRefresh(s, s.flights[p].client, s.flights[p].token)
                && s.refresh[s.flights[p].token].grant == f.issue)
  {
  }

  lemma DeadFlight(h: Hash, s: Store, a: Action, client: Id, p: nat)
    requires Dead(h, s, client) && Enabled(h, s, a) && p in Do(h, s, a).flights
    ensures var f := Do(h, s, a).flights[p];
            && !Pending(h, Do(h, s, a), f, client)
            && (f.Exchanging? && f.client == client ==> f.code in Do(h, s, a).drawn)
  {
    if Rotating(Do(h, s, a).flights[p]) {
      DeadRotation(h, s, a, client, p);
    } else if Do(h, s, a).flights[p].Exchanging? && Do(h, s, a).flights[p].client == client {
      DeadExchange(h, s, a, client, p);
    }
  }

  lemma DeadRotation(h: Hash, s: Store, a: Action, client: Id, p: nat)
    requires Dead(h, s, client) && Enabled(h, s, a) && p in Do(h, s, a).flights && Rotating(Do(h, s, a).flights[p])
    ensures Do(h, s, a).flights[p].issue.client != client
  {
    RotatingFrom(h, s, a, p);
    assert !Pending(h, s, s.flights[p], client);
    if s.flights[p].Refreshing? {
      assert LiveRefresh(s, s.flights[p].token);
    }
  }

  lemma DeadExchange(h: Hash, s: Store, a: Action, client: Id, p: nat)
    requires Dead(h, s, client) && Enabled(h, s, a) && p in Do(h, s, a).flights
    requires var f := Do(h, s, a).flights[p]; f.Exchanging? && f.client == client
    ensures !Succeeds(h, Do(h, s, a), Do(h, s, a).flights[p]) && Do(h, s, a).flights[p].code in Do(h, s, a).drawn
  {
    ExchangingBefore(h, s, a, p);
    var f := s.flights[p];
    assert !Pending(h, s, f, client);
    HopelessStays(h, s, a, f);
    DrawnKept(h, s, a, f.code);
  }

  lemma DeadStep(h: Hash, s: Store, a: Action, client: Id)
    requires Dead(h, s, client)
    ensures Dead(h, Step(h, s, a), client)
  {
    if Enabled(h, s, a) {
      var s' := Do(h, s, a);
      AppStaysRevoked(h, s, a, client);
      forall t | LiveAccess(s', t)
        ensures s'.access[t].grant.client != client
      {
        DeadAccess(h, s, a, client, t);
      }
      forall t | LiveRefresh(s', t)
        ensures s'.refresh[t].grant.client != client
      {
        DeadRefresh(h, s, a, client, t);
      }
      forall p | p in s'.flights
        ensures !Pending(h, s', s'.flights[p], client)
        ensures s'.flights[p].Exchanging? && s'.flights[p].client == client ==> s'.flights[p].code in s'.drawn
      {
        DeadFlight(h, s, a, client, p);
      }
    }
  }

  /** Once dead, a client has no live token in any later state of any interleaving,
      although refreshing never looks at the revoked flag. */
  lemma {:induction false} DeadForever(h: Hash, s: Store, actions: seq<Action>, client: Id)
    requires Dead(h, s, client)
    ensures Dead(h, Run(h, s, actions), client)
    decreases actions
  {
    if actions != [] {
      DeadStep(h, s, actions[0], client);
      DeadForever(h, Step(h, s, actions[0]), actions[1..], client);
    }
  }

  /** The revocation request, run without interruption. */
  function Revocation(pid: nat, client: Id, owner: Id): seq<Action> {
    [RevokeApp(pid, client, owner), RevokeAppAccess(pid), RevokeAppRefresh(pid)]
  }

  /** What a revocation leaves. */
  function Revoked(s: Store, client: Id): Store
    requires client in s.apps
  {
    s.(apps := s.apps[client := s.apps[client].(revoked := true)], access := RevokeClientAccess(s.access, client),
       refresh := RevokeClientRefresh(s.refresh, client))
  }

  lemma RevocationResult(h: Hash, s: Store, pid: nat, client: Id, owner: Id)
    requires Idle(s, pid) && client in s.apps && s.apps[client].owner == owner
    ensures Run(h, s, Revocation(pid, client, owner)) == Revoked(s, client)
  {
    var a, b, c := RevokeApp(pid, client, owner), RevokeAppAccess(pid), RevokeAppRefresh(pid);
    var s1 := FirstRevocation(h, s, pid, client, owner);
    var s2 := SecondRevocation(h, s1, pid, client);
    var s3 := ThirdRevocation(h, s2, pid, client);
    assert Without(s.flights[pid := RevokingAccess(client)][pid := RevokingRefresh(client)], pid) == s.flights;
    RunTwo(h, s, a, b);
    RunOne(h, s2, c);
    RunAppend(h, s, [a, b], [c]);
    assert [a, b] + [c] == Revocation(pid, client, owner);
  }

  lemma FirstRevocation(h: Hash, s: Store, pid: nat, client: Id, owner: Id) returns (s': Store)
    requires Idle(s, pid) && client in s.apps && s.apps[client].owner == owner
    ensures s' == Step(h, s, RevokeApp(pid, client, owner))
    ensures s' == s.(apps := s.apps[client := s.apps[client].(revoked := true)],
                     flights := s.flights[pid := RevokingAccess(client)])
  {
    s' := Step(h, s, RevokeApp(pid, client, owner));
  }

  lemma SecondRevocation(h: Hash, s: Store, pid: nat, client: Id) returns (s': Store)
    requires pid in s.flights && s.flights[pid] == RevokingAccess(client)
    ensures s' == Step(h, s, RevokeAppAccess(pid))
    ensures s' == s.(access := RevokeClientAccess(s.access, client), flights := s.flights[pid := RevokingRefresh(client)])
  {
    s' := Step(h, s, RevokeAppAccess(pid));
  }

  lemma ThirdRevocation(h: Hash, s: Store, pid: nat, client: Id) returns (s': Store)
    requires pid in s.flights && s.flights[pid] == RevokingRefresh(client)
    ensures s' == Step(h, s, RevokeAppRefresh(pid))
    ensures s' == s.(refresh := RevokeClientRefresh(s.refresh, client), flights := Without(s.flights, pid))
  {
    s' := Step(h, s, RevokeAppRefresh(pid));
  }

  /** An uninterrupted revocation with nothing of the client on its way ends it. */
  lemma RevocationEnds(h: Hash, s: Store, pid: nat, client: Id, owner: Id)
    requires Idle(s, pid) && client in s.apps && client in s.drawn && s.apps[client].owner == owner
    requires Quiet(h, s, client) && Named(s, client)
    ensures Dead(h, Run(h, s, Revocation(pid, client, owner)), client)
  {
    RevocationResult(h, s, pid, client, owner);
    var s' := Revoked(s, client);
    forall p | p in s'.flights
      ensures !Pending(h, s', s'.flights[p], client)
    {
      assert !Pending(h, s, s.flights[p], client);
    }
  }

  /** No later state has a live token of the client. */
  ghost predicate NoTokenEver(h: Hash, s: Store, client: Id) {
    forall actions: seq<Action>, t ::
      && (LiveAccess(Run(h, s, actions), t) ==> Run(h, s, actions).access[t].grant.client != client)
      && (LiveRefresh(Run(h, s, actions), t) ==> Run(h, s, actions).refresh[t].grant.client != client)
  }

  /** A request that is issuing tokens of the client brings a live one. */
  lemma IssueBringsToken(h: Hash, s: Store, client: Id, p: nat)
    requires p in s.flights && Rotating(s.flights[p]) && s.flights[p].issue.client == client
    ensures !NoTokenEver(h, s, client)
  {
    var r := FreshId(s.drawn);
    if s.flights[p].Issued? {
      assert Enabled(h, s, StoreRefresh(p, r));
      RunOne(h, s, StoreRefresh(p, r));
      assert LiveRefresh(Run(h, s, [StoreRefresh(p, r)]), r);
    } else {
      assert Enabled(h, s, StoreAccess(p, r));
      RunOne(h, s, StoreAccess(p, r));
      assert LiveAccess(Run(h, s, [StoreAccess(p, r)]), r);
    }
  }

  /** So does an exchange that its code satisfies: it takes the code and stores an access
      token, and neither step reads the application again. */
  lemma ExchangeBringsToken(h: Hash, s: Store, client: Id, p: nat)
    requires p in s.flights && Succeeds(h, s, s.flights[p]) && s.flights[p].client == client
    ensures !NoTokenEver(h, s, client)
  {
    var family := FreshId(s.drawn);
    var take := TakeCode(p, family);
    assert Enabled(h, s, take);
    var s1 := Step(h, s, take);
    assert s1.flights[p].Issuing? && s1.flights[p].issue.client == client;
    var t := FreshId(s1.drawn);
    StoreAccessLive(h, s1, p, t);
    RunTwo(h, s, take, StoreAccess(p, t));
    assert LiveAccess(Run(h, s, [take, StoreAccess(p, t)]), t);
  }

  lemma StoreAccessLive(h: Hash, s: Store, p: nat, t: Secret)
    requires p in s.flights && s.flights[p].Issuing? && t !in s.drawn
    ensures LiveAccess(Step(h, s, StoreAccess(p, t)), t)
    ensures Step(h, s, StoreAccess(p, t)).access[t].grant == s.flights[p].issue
  {
    assert Enabled(h, s, StoreAccess(p, t));
  }

  /** An uninterrupted revocation is final exactly when, at that moment, no request is
      issuing tokens of the client and no exchange of the client past its look at the
      application has a code that satisfies it. */
  lemma RevocationFinalExactly(h: Hash, s: Store, pid: nat, client: Id, owner: Id)
    requires Idle(s, pid) && client in s.apps && client in s.drawn && s.apps[client].owner == owner
    requires Named(s, client)
    ensures NoTokenEver(h, Run(h, s, Revocation(pid, client, owner)), client) <==>
            forall p <- s.flights :: !Pending(h, s, s.flights[p], client)
  {
    RevocationResult(h, s, pid, client, owner);
    var s' := Revoked(s, client);
    forall p | p in s.flights
      ensures Pending(h, s', s'.flights[p], client) <==> Pending(h, s, s.flights[p], client)
    {
    }
    DoneExactly(h, s', client);
  }

  lemma DeadMeansNever(h: Hash, s: Store, client: Id)
    requires Dead(h, s, client)
    ensures NoTokenEver(h, s, client)
  {
    forall actions: seq<Action>, t
      ensures LiveAccess(Run(h, s, actions), t) ==> Run(h, s, actions).access[t].grant.client != client
      ensures LiveRefresh(Run(h, s, actions), t) ==> Run(h, s, actions).refresh[t].grant.client != client
    {
      DeadForever(h, s, actions, client);
    }
  }

  // ---------------------------------------------------------------------
  // Revocations whose updates interleave with other requests

  lemma PendingBringsToken(h: Hash, s: Store, client: Id, p: nat)
    requires p in s.flights && Pending(h, s, s.flights[p], client)
    ensures !NoTokenEver(h, s, client)
  {
    if Rotating(s.flights[p]) {
      IssueBringsToken(h, s, client, p);
    } else {
      ExchangeBringsToken(h, s, client, p);
    }
  }

  /** In every state with the application revoked, its client is done for good exactly when
      it has no live token and no request on its way. */
  lemma DoneExactly(h: Hash, s: Store, client: Id)
    requires AppRevoked(s, client) && Named(s, client)
    ensures NoTokenEver(h, s, client) <==> NoLiveAccess(s, client) && NoLiveRefresh(s, client) && Quiet(h, s, client)
  {
    if NoLiveAccess(s, client) && NoLiveRefresh(s, client) && Quiet(h, s, client) {
      DeadMeansNever(h, s, client);
    } else if p :| p in s.flights && Pending(h, s, s.flights[p], client) {
      PendingBringsToken(h, s, client, p);
    } else {
      assert Run(h, s, []) == s;
    }
  }

  /** A revocation under way belongs to a revoked application. */
  ghost predicate UnderWay(s: Store) {
    && s.apps.Keys <= s.drawn
    && forall p <- s.flights :: s.flights[p].RevokingAccess? || s.flights[p].RevokingRefresh? ==>
         AppRevoked(s, s.flights[p].client)
  }

  lemma UnderWayFlight(h: Hash, s: Store, a: Action, p: nat)
    requires UnderWay(s) && Enabled(h, s, a) && p in Do(h, s, a).flights
    requires Do(h, s, a).flights[p].RevokingAccess? || Do(h, s, a).flights[p].RevokingRefresh?
    ensures AppRevoked(Do(h, s, a), Do(h, s, a).flights[p].client)
  {
    var client := Do(h, s, a).flights[p].client;
    if a.RevokeApp? && p == a.pid {
      assert client == a.client;
    } else {
      RevokingBefore(h, s, a, p);
      AppStaysRevoked(h, s, a, client);
    }
  }

  lemma RevokingBefore(h: Hash, s: Store, a: Action, p: nat)
    requires Enabled(h, s, a) && p in Do(h, s, a).flights && !(a.RevokeApp? && p == a.pid)
    requires Do(h, s, a).flights[p].RevokingAccess? || Do(h, s, a).flights[p].RevokingRefresh?
    ensures p in s.flights && (s.flights[p].RevokingAccess? || s.flights[p].RevokingRefresh?)
    ensures s.flights[p].client == Do(h, s, a).flights[p].client
  {
  }

  lemma UnderWayStep(h: Hash, s: Store, a: Action)
    requires UnderWay(s)
    ensures UnderWay(Step(h, s, a))
  {
    AppsDrawnStep(h, s, a);
    if Enabled(h, s, a) {
      var s' := Do(h, s, a);
      forall p | p in s'.flights && (s'.flights[p].RevokingAccess? || s'.flights[p].RevokingRefresh?)
        ensures AppRevoked(s', s'.flights[p].client)
      {
        UnderWayFlight(h, s, a, p);
      }
    }
  }

  lemma {:induction false} UnderWayRun(h: Hash, s: Store, actions: seq<Action>)
    requires UnderWay(s)
    ensures UnderWay(Run(h, s, actions))
    decreases actions
  {
    if actions != [] {
      UnderWayStep(h, s, actions[0]);
      UnderWayRun(h, Step(h, s, actions[0]), actions[1..]);
    }
  }

  lemma LastUpdate(h: Hash, s: Store, pid: nat, client: Id)
    requires pid in s.flights && s.flights[pid] == RevokingRefresh(client)
    ensures var s' := Step(h, s, RevokeAppRefresh(pid));
            && NoLiveRefresh(s', client) && (NoLiveAccess(s', client) <==> NoLiveAccess(s, client))
            && (Quiet(h, s', client) <==> Quiet(h, s, client)) && (Named(s, client) ==> Named(s', client))
            && (AppRevoked(s, client) ==> AppRevoked(s', client))
  {
    var s' := ThirdRevocation(h, s, pid, client);
    assert forall t :: LiveAccess(s', t) <==> LiveAccess(s, t);
    forall p
      ensures p in s'.flights && Pending(h, s', s'.flights[p], client) <==>
              p in s.flights && Pending(h, s, s.flights[p], client)
    {
    }
  }

  /** However the three updates of a revocation interleave with other requests: it is final
      exactly when, at its last update, no access token of the client is live (one may have
      been stored since the second update), no request is issuing tokens of the client, and
      no exchange past its look at the application has a code that satisfies it. */
  lemma InterleavedRevocationExactly(h: Hash, actions: seq<Action>, pid: nat, client: Id)
    requires var s := Run(h, EMPTY, actions);
             pid in s.flights && s.flights[pid] == RevokingRefresh(client) && Named(s, client)
    ensures var s := Run(h, EMPTY, actions);
            (NoTokenEver(h, Step(h, s, RevokeAppRefresh(pid)), client) <==>
             NoLiveAccess(s, client) && Quiet(h, s, client))
  {
    var s := Run(h, EMPTY, actions);
    UnderWayRun(h, EMPTY, actions);
    LastUpdate(h, s, pid, client);
    DoneExactly(h, Step(h, s, RevokeAppRefresh(pid)), client);
  }

  // ---------------------------------------------------------------------
  // Handlers that run one at a time

  /** The request that an action belongs to. */
  predicate Of(a: Action, pid: nat) {
    match a
    case Tick(_) => true
    case CreateApp(_, _, _, _, _, _) => true
    case RotateSecret(_, _, _) => true
    case Deny(_, _, _) => true
    case _ => a.pid == pid
  }

  /** A handler: any operations of one request, then its end. */
  datatype Handler = Handler(pid: nat, operations: seq<Action>)

  predicate IsHandler(handler: Handler) {
    forall a <- handler.operations :: Of(a, handler.pid)
  }

  function Operations(handlers: seq<Handler>): seq<Action> {
    if handlers == [] then []
    else handlers[0].operations + [End(handlers[0].pid)] + Operations(handlers[1..])
  }

  lemma OnlyOwnFlight(h: Hash, s: Store, a: Action, pid: nat)
    requires Of(a, pid) && s.flights.Keys <= {pid}
    ensures Step(h, s, a).flights.Keys <= {pid}
  {
  }

  lemma {:induction false} OnlyOwnFlightRun(h: Hash, s: Store, actions: seq<Action>, pid: nat)
    requires s.flights.Keys <= {pid} && forall a <- actions :: Of(a, pid)
    ensures Run(h, s, actions).flights.Keys <= {pid}
    decreases actions
  {
    if actions != [] {
      assert Of(actions[0], pid);
      OnlyOwnFlight(h, s, actions[0], pid);
      OnlyOwnFlightRun(h, Step(h, s, actions[0]), actions[1..], pid);
    }
  }

  /** Between handlers that run one at a time nothing is in flight. */
  lemma {:induction false} NothingInFlight(h: Hash, s: Store, handlers: seq<Handler>)
    requires s.flights == map[] && forall x <- handlers :: IsHandler(x)
    ensures Run(h, s, Operations(handlers)).flights == map[]
    decreases handlers
  {
    if handlers != [] {
      var x := handlers[0];
      assert IsHandler(x);
      OnlyOwnFlightRun(h, s, x.operations, x.pid);
      var s1 := Run(h, s, x.operations);
      RunOne(h, s1, End(x.pid));
      var s2 := Step(h, s1, End(x.pid));
      assert s2.flights == map[];
      NothingInFlight(h, s2, handlers[1..]);
      RunAppend(h, s, x.operations, [End(x.pid)]);
      RunAppend(h, s, x.operations + [End(x.pid)], Operations(handlers[1..]));
    }
  }

  /** Client IDs are drawn values, so no application is ever replaced. */
  lemma {:induction false} AppsDrawn(h: Hash, s: Store, actions: seq<Action>)
    requires s.apps.Keys <= s.drawn
    ensures Run(h, s, actions).apps.Keys <= Run(h, s, actions).drawn
    decreases actions
  {
    if actions != [] {
      AppsDrawnStep(h, s, actions[0]);
      AppsDrawn(h, Step(h, s, actions[0]), actions[1..]);
    }
  }

  lemma AppsDrawnStep(h: Hash, s: Store, a: Action)
    requires s.apps.Keys <= s.drawn
    ensures Step(h, s, a).apps.Keys <= Step(h, s, a).drawn
  {
  }

  /** Over every run of handlers one at a time: after an application is revoked by its
      owner, none of its tokens is live in any later state. */
  lemma RevokedMeansNoTokens(
    h: Hash, before: seq<Handler>, pid: nat, client: Id, owner: Id, after: seq<Action>, t: Secret)
    requires forall x <- before :: IsHandler(x)
    requires var m := Run(h, EMPTY, Operations(before)); client in m.apps && m.apps[client].owner == owner
    ensures var e := Run(h, Run(h, Run(h, EMPTY, Operations(before)), Revocation(pid, client, owner)), after);
            && (LiveAccess(e, t) ==> e.access[t].grant.client != client)
            && (LiveRefresh(e, t) ==> e.refresh[t].grant.client != client)
  {
    NothingInFlight(h, EMPTY, before);
    AppsDrawn(h, EMPTY, Operations(before));
    var m := Run(h, EMPTY, Operations(before));
    RevocationEnds(h, m, pid, client, owner);
    DeadForever(h, Run(h, m, Revocation(pid, client, owner)), after, client);
  }
}
