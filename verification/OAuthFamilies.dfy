/** Refresh token families under arbitrary interleavings: one live token or one
    rotation, and no resurrection. */
module OAuthFamilies {
  import opened Entities
  import opened Compare
  import opened OAuth

  predicate Unrevoked(s: Store, t: Secret) {
    t in s.refresh && !s.refresh[t].revoked
  }

  /** Request `p` is issuing tokens for family `f`. */
  predicate InFlight(s: Store, p: nat, f: Secret) {
    p in s.flights && Rotating(s.flights[p]) && s.flights[p].line == f
  }

  /** Each family has at most one of: an unrevoked refresh token, a rotation in flight. */
  ghost predicate OneLine(s: Store) {
    && (forall t, u :: Unrevoked(s, t) && Unrevoked(s, u) && s.refresh[t].family == s.refresh[u].family ==> t == u)
    && (forall p, q, f :: InFlight(s, p, f) && InFlight(s, q, f) ==> p == q)
    && (forall t, p :: Unrevoked(s, t) ==> !InFlight(s, p, s.refresh[t].family))
  }

  /** Family names in use have been drawn. */
  ghost predicate Drawn(s: Store) {
    && (forall t <- s.refresh :: t in s.drawn && s.refresh[t].family in s.drawn)
    && (forall p <- s.flights :: Rotating(s.flights[p]) ==> s.flights[p].line in s.drawn)
  }

  ghost predicate FamilyInv(s: Store) {
    OneLine(s) && Drawn(s)
  }

  // ---------------------------------------------------------------------
  // The steps, by their effect on refresh tokens and rotations

  /** A step that may revoke tokens and end rotations but brings in nothing. */
  ghost predicate Shrinks(s: Store, s': Store) {
    && s.drawn <= s'.drawn
    && s'.refresh.Keys == s.refresh.Keys
    && (forall t <- s.refresh :: s'.refresh[t].family == s.refresh[t].family
                                 && s'.refresh[t].grant == s.refresh[t].grant
                                 && (s.refresh[t].revoked ==> s'.refresh[t].revoked))
    && (forall p <- s'.flights :: Rotating(s'.flights[p]) ==>
          p in s.flights && Rotating(s.flights[p]) && s.flights[p].line == s'.flights[p].line
          && s.flights[p].issue == s'.flights[p].issue)
  }

  lemma ShrinksKeeps(s: Store, s': Store)
    requires FamilyInv(s) && Shrinks(s, s')
    ensures FamilyInv(s')
  {
    assert forall t :: Unrevoked(s', t) ==> Unrevoked(s, t);
    assert forall p, f :: InFlight(s', p, f) ==> InFlight(s, p, f);
  }

  /** The actions that neither start a rotation nor store a refresh token. */
  predicate Plain(a: Action) {
    !a.TakeCode? && !a.TakeRefresh? && !a.StoreRefresh?
  }

  lemma PlainTokens(h: Hash, s: Store, a: Action, t: Secret)
    requires Enabled(h, s, a) && Plain(a)
    ensures var s' := Do(h, s, a);
            && (t in s'.refresh <==> t in s.refresh)
            && (t in s.refresh ==> && s'.refresh[t].family == s.refresh[t].family
                                   && s'.refresh[t].grant == s.refresh[t].grant
                                   && (s.refresh[t].revoked ==> s'.refresh[t].revoked))
  {
  }

  lemma PlainFlights(h: Hash, s: Store, a: Action, p: nat)
    requires Enabled(h, s, a) && Plain(a)
    ensures var s' := Do(h, s, a);
            p in s'.flights && Rotating(s'.flights[p]) ==>
              p in s.flights && Rotating(s.flights[p]) && s.flights[p].line == s'.flights[p].line
              && s.flights[p].issue == s'.flights[p].issue
  {
  }

  lemma PlainShrinks(h: Hash, s: Store, a: Action)
    requires Enabled(h, s, a) && Plain(a)
    ensures Shrinks(s, Do(h, s, a))
  {
    var s' := Do(h, s, a);
    forall t
      ensures t in s'.refresh <==> t in s.refresh
      ensures t in s.refresh ==> && s'.refresh[t].family == s.refresh[t].family
                                 && s'.refresh[t].grant == s.refresh[t].grant
                                 && (s.refresh[t].revoked ==> s'.refresh[t].revoked)
    {
      PlainTokens(h, s, a, t);
    }
    forall p | p in s'.flights && Rotating(s'.flights[p])
      ensures p in s.flights && Rotating(s.flights[p]) && s.flights[p].line == s'.flights[p].line
              && s.flights[p].issue == s'.flights[p].issue
    {
      PlainFlights(h, s, a, p);
    }
  }

  lemma TakeCodeKeeps(h: Hash, s: Store, pid: nat, value: Secret)
    requires FamilyInv(s) && Enabled(h, s, TakeCode(pid, value))
    ensures FamilyInv(Do(h, s, TakeCode(pid, value)))
  {
    var s' := Do(h, s, TakeCode(pid, value));
    assert forall p, f :: InFlight(s', p, f) && p != pid ==> InFlight(s, p, f) && f != value;
    assert forall t :: Unrevoked(s', t) ==> Unrevoked(s, t) && s.refresh[t].family != value;
  }

  lemma TakeRefreshKeeps(h: Hash, s: Store, pid: nat)
    requires FamilyInv(s) && Enabled(h, s, TakeRefresh(pid))
    ensures FamilyInv(Do(h, s, TakeRefresh(pid)))
  {
    var s' := Do(h, s, TakeRefresh(pid));
    var token := s.flights[pid].token;
    assert Unrevoked(s, token);
    assert forall t :: Unrevoked(s', t) ==> Unrevoked(s, t) && t != token;
    assert forall p, g :: InFlight(s', p, g) && p != pid ==> InFlight(s, p, g);
    assert forall g :: InFlight(s', pid, g) ==> g == s.refresh[token].family;
  }

  /** Storing the new token of a rotation: all other tokens are of other families, and
      the rotation is over. */
  lemma StoreRefreshOthers(h: Hash, s: Store, pid: nat, value: Secret)
    requires FamilyInv(s) && Enabled(h, s, StoreRefresh(pid, value))
    ensures var s' := Do(h, s, StoreRefresh(pid, value));
            var f := s.flights[pid].line;
            && value in s'.refresh && s'.refresh[value].family == f
            && (forall t :: Unrevoked(s', t) && t != value ==>
                  Unrevoked(s, t) && s'.refresh[t].family == s.refresh[t].family != f)
            && (forall p, g :: InFlight(s', p, g) ==> InFlight(s, p, g) && g != f)
            && Drawn(s')
  {
    var s' := Do(h, s, StoreRefresh(pid, value));
    var f := s.flights[pid].line;
    assert InFlight(s, pid, f);
    forall t | Unrevoked(s', t) && t != value
      ensures Unrevoked(s, t) && s'.refresh[t].family == s.refresh[t].family != f
    {
      assert s'.refresh[t] == s.refresh[t];
      assert Unrevoked(s, t) && !InFlight(s, pid, s.refresh[t].family);
    }
    forall p, g | InFlight(s', p, g)
      ensures InFlight(s, p, g) && g != f
    {
      assert p != pid && s'.flights[p] == s.flights[p];
      assert InFlight(s, p, g);
    }
  }

  lemma StoreRefreshKeeps(h: Hash, s: Store, pid: nat, value: Secret)
    requires FamilyInv(s) && Enabled(h, s, StoreRefresh(pid, value))
    ensures FamilyInv(Do(h, s, StoreRefresh(pid, value)))
  {
    StoreRefreshOthers(h, s, pid, value);
  }

  lemma PlainKeeps(h: Hash, s: Store, a: Action)
    requires FamilyInv(s) && Enabled(h, s, a) && Plain(a)
    ensures FamilyInv(Do(h, s, a))
  {
    PlainShrinks(h, s, a);
    ShrinksKeeps(s, Do(h, s, a));
  }

  /** Every step of every interleaving keeps each family to one line. */
  lemma FamilyInvStep(h: Hash, s: Store, a: Action)
    requires FamilyInv(s)
    ensures FamilyInv(Step(h, s, a))
  {
    if !Enabled(h, s, a) {
      assert Step(h, s, a) == s;
    } else if Plain(a) {
      PlainKeeps(h, s, a);
    } else if a.TakeCode? {
      TakeCodeKeeps(h, s, a.pid, a.value);
    } else if a.TakeRefresh? {
      TakeRefreshKeeps(h, s, a.pid);
    } else {
      StoreRefreshKeeps(h, s, a.pid, a.value);
    }
  }

  lemma {:induction false} FamilyInvRun(h: Hash, s: Store, actions: seq<Action>)
    requires FamilyInv(s)
    ensures FamilyInv(Run(h, s, actions))
    decreases actions
  {
    if actions != [] {
      FamilyInvStep(h, s, actions[0]);
      FamilyInvRun(h, Step(h, s, actions[0]), actions[1..]);
    }
  }

  /** In every interleaving from the start, two live refresh tokens of one family are
      the same token, and a family with a rotation in flight has none. */
  lemma OneLiveTokenPerFamily(h: Hash, actions: seq<Action>, t: Secret, u: Secret, p: nat)
    ensures var s := Run(h, EMPTY, actions);
            && (LiveRefresh(s, t) && LiveRefresh(s, u) && s.refresh[t].family == s.refresh[u].family ==> t == u)
            && (LiveRefresh(s, t) ==> !InFlight(s, p, s.refresh[t].family))
  {
    FamilyInvRun(h, EMPTY, actions);
    var s := Run(h, EMPTY, actions);
    assert LiveRefresh(s, t) ==> Unrevoked(s, t);
    assert LiveRefresh(s, u) ==> Unrevoked(s, u);
  }

  // ---------------------------------------------------------------------
  // A family with neither never becomes live again

  /** A drawn family name with no unrevoked token and no rotation in flight. */
  ghost predicate Ended(s: Store, f: Secret) {
    && f in s.drawn
    && (forall t :: Unrevoked(s, t) ==> s.refresh[t].family != f)
    && (forall p :: !InFlight(s, p, f))
  }

  lemma EndedNoRotation(h: Hash, s: Store, a: Action, f: Secret, p: nat)
    requires Ended(s, f) && Enabled(h, s, a) && !Plain(a)
    ensures !InFlight(Do(h, s, a), p, f)
  {
    assert !InFlight(s, p, f);
    if a.TakeRefresh? {
      assert Unrevoked(s, s.flights[a.pid].token);
    }
  }

  lemma EndedNoToken(h: Hash, s: Store, a: Action, f: Secret, t: Secret)
    requires Ended(s, f) && Enabled(h, s, a) && !Plain(a) && Unrevoked(Do(h, s, a), t)
    ensures Do(h, s, a).refresh[t].family != f
  {
    if a.StoreRefresh? && t == a.value {
      assert !InFlight(s, a.pid, f);
    } else {
      assert Unrevoked(s, t);
    }
  }

  lemma EndedStep(h: Hash, s: Store, a: Action, f: Secret)
    requires Ended(s, f)
    ensures Ended(Step(h, s, a), f)
  {
    if Enabled(h, s, a) {
      var s' := Do(h, s, a);
      if Plain(a) {
        PlainShrinks(h, s, a);
        assert forall t :: Unrevoked(s', t) ==> Unrevoked(s, t);
        assert forall p :: InFlight(s', p, f) ==> InFlight(s, p, f);
      } else {
        forall p
          ensures !InFlight(s', p, f)
        {
          EndedNoRotation(h, s, a, f, p);
        }
        forall t | Unrevoked(s', t)
          ensures s'.refresh[t].family != f
        {
          EndedNoToken(h, s, a, f, t);
        }
      }
    }
  }

  lemma {:induction false} EndedForever(h: Hash, s: Store, actions: seq<Action>, f: Secret)
    requires Ended(s, f)
    ensures Ended(Run(h, s, actions), f)
    decreases actions
  {
    if actions != [] {
      EndedStep(h, s, actions[0], f);
      EndedForever(h, Step(h, s, actions[0]), actions[1..], f);
    }
  }

  /** No later state has a live refresh token of the family. */
  ghost predicate NeverLiveAgain(h: Hash, s: Store, f: Secret) {
    forall actions: seq<Action>, t ::
      LiveRefresh(Run(h, s, actions), t) ==> Run(h, s, actions).refresh[t].family != f
  }

  lemma IssuedRevives(h: Hash, s: Store, p: nat, f: Secret) returns (r: Secret)
    requires InFlight(s, p, f) && s.flights[p].Issued?
    ensures LiveRefresh(Step(h, s, StoreRefresh(p, r)), r)
    ensures Step(h, s, StoreRefresh(p, r)).refresh[r].family == f
  {
    r := FreshId(s.drawn);
    assert Enabled(h, s, StoreRefresh(p, r));
  }

  lemma RotationRevives(h: Hash, s: Store, p: nat, f: Secret)
    requires InFlight(s, p, f)
    ensures !NeverLiveAgain(h, s, f)
  {
    if s.flights[p].Issued? {
      var r := IssuedRevives(h, s, p, f);
      RunOne(h, s, StoreRefresh(p, r));
    } else {
      var a := FreshId(s.drawn);
      assert Enabled(h, s, StoreAccess(p, a));
      var s1 := Step(h, s, StoreAccess(p, a));
      assert InFlight(s1, p, f) && s1.flights[p].Issued?;
      var r := IssuedRevives(h, s1, p, f);
      RunTwo(h, s, StoreAccess(p, a), StoreRefresh(p, r));
    }
  }

  /** The reuse response kills a family for good exactly when no rotation of that
      family is in flight at that moment. */
  lemma KillIsFinalExactly(h: Hash, s: Store, pid: nat)
    requires FamilyInv(s) && pid in s.flights && s.flights[pid].Killing? && s.flights[pid].family in s.drawn
    ensures var f := s.flights[pid].family;
            NeverLiveAgain(h, Step(h, s, KillFamily(pid)), f) <==> forall p :: !InFlight(s, p, f)
  {
    var f := s.flights[pid].family;
    var s' := Step(h, s, KillFamily(pid));
    if p :| InFlight(s, p, f) {
      assert InFlight(s', p, f);
      RotationRevives(h, s', p, f);
    } else {
      KillEnds(h, s, pid, f);
      forall actions: seq<Action>, t | LiveRefresh(Run(h, s', actions), t)
        ensures Run(h, s', actions).refresh[t].family != f
      {
        EndedForever(h, s', actions, f);
        assert Unrevoked(Run(h, s', actions), t);
      }
    }
  }

  /** Presenting a refresh token that is not live, with no rotation of its family in
      flight, runs to the end of the family. */
  lemma ReuseEndsFamily(h: Hash, s: Store, pid: nat, client: Id, secret: Option<Secret>, token: Secret)
    requires FamilyInv(s) && Idle(s, pid) && client in s.apps && Authenticates(s.apps[client], secret)
    requires token in s.refresh && s.refresh[token].grant.client == client && !LiveRefresh(s, token)
    requires forall p :: !InFlight(s, p, s.refresh[token].family)
    ensures Ended(Run(h, s, [PresentRefresh(pid, client, secret, token), MissRefresh(pid), FindReused(pid), KillFamily(pid)]),
                  s.refresh[token].family)
  {
    var f := s.refresh[token].family;
    var a, b, c, d := PresentRefresh(pid, client, secret, token), MissRefresh(pid), FindReused(pid), KillFamily(pid);
    var s2 := ReusePresented(h, s, pid, client, secret, token);
    forall p
      ensures !InFlight(s2, p, f)
    {
      assert !InFlight(s, p, f);
    }
    ReuseKills(h, s2, pid, client, token);
    RunAppend(h, s, [a, b], [c, d]);
    assert [a, b] + [c, d] == [a, b, c, d];
  }

  lemma ReuseKills(h: Hash, s: Store, pid: nat, client: Id, token: Secret)
    requires pid in s.flights && s.flights[pid] == Reused(client, token)
    requires token in s.refresh && s.refresh[token].grant.client == client && s.refresh[token].family in s.drawn
    requires forall p :: !InFlight(s, p, s.refresh[token].family)
    ensures Ended(Run(h, s, [FindReused(pid), KillFamily(pid)]), s.refresh[token].family)
  {
    var f := s.refresh[token].family;
    var s' := ReuseFound(h, s, pid, client, token);
    forall p
      ensures !InFlight(s', p, f)
    {
      assert !InFlight(s, p, f);
    }
    KillEnds(h, s', pid, f);
    RunTwo(h, s, FindReused(pid), KillFamily(pid));
  }

  lemma ReusePresented(h: Hash, s: Store, pid: nat, client: Id, secret: Option<Secret>, token: Secret) returns (s': Store)
    requires Idle(s, pid) && client in s.apps && Authenticates(s.apps[client], secret) && !OpenRefresh(s, client, token)
    ensures s' == Run(h, s, [PresentRefresh(pid, client, secret, token), MissRefresh(pid)])
    ensures s' == s.(flights := s.flights[pid := Reused(client, token)])
  {
    var a := PresentRefresh(pid, client, secret, token);
    assert Enabled(h, s, a);
    var s1 := Step(h, s, a);
    assert s1 == s.(flights := s.flights[pid := Refreshing(client, token)]);
    assert Enabled(h, s1, MissRefresh(pid));
    s' := Step(h, s1, MissRefresh(pid));
    assert s.flights[pid := Refreshing(client, token)][pid := Reused(client, token)] == s.flights[pid := Reused(client, token)];
    RunTwo(h, s, a, MissRefresh(pid));
  }

  lemma ReuseFound(h: Hash, s: Store, pid: nat, client: Id, token: Secret) returns (s': Store)
    requires pid in s.flights && s.flights[pid] == Reused(client, token)
    requires token in s.refresh && s.refresh[token].grant.client == client
    ensures s' == Step(h, s, FindReused(pid)) == s.(flights := s.flights[pid := Killing(s.refresh[token].family)])
  {
    assert Enabled(h, s, FindReused(pid));
    s' := Step(h, s, FindReused(pid));
  }

  lemma KillEnds(h: Hash, s: Store, pid: nat, f: Secret)
    requires pid in s.flights && s.flights[pid] == Killing(f) && f in s.drawn
    requires forall p :: !InFlight(s, p, f)
    ensures Ended(Step(h, s, KillFamily(pid)), f)
  {
    var s' := Step(h, s, KillFamily(pid));
    forall p
      ensures !InFlight(s', p, f)
    {
      assert !InFlight(s, p, f);
    }
  }

  lemma RunOne(h: Hash, s: Store, a: Action)
    ensures Run(h, s, [a]) == Step(h, s, a)
  {
    assert [a][1..] == [];
  }

  lemma RunTwo(h: Hash, s: Store, a: Action, b: Action)
    ensures Run(h, s, [a, b]) == Step(h, Step(h, s, a), b)
  {
    assert [a, b][1..] == [b];
    RunOne(h, Step(h, s, a), b);
  }

  lemma {:induction false} RunAppend(h: Hash, s: Store, a: seq<Action>, b: seq<Action>)
    ensures Run(h, s, a + b) == Run(h, Run(h, s, a), b)
    decreases a
  {
    if a == [] {
      assert a + b == b;
    } else {
      assert (a + b)[1..] == a[1..] + b;
      RunAppend(h, Step(h, s, a[0]), a[1..], b);
    }
  }
}
