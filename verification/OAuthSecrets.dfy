/** What an application's record and a token's lifetime depend on: only the owner changes
    the record, only the newest secret opens it, a dropped token stays dead, and every
    expiry date is that of the operation that stored the record. */
module OAuthSecrets {
  import opened Entities
  import opened Compare
  import opened OAuth
  import opened OAuthFamilies
  import opened OAuthTrace

  // ---------------------------------------------------------------------
  // Applications

  /** Only the owner changes an application: its secret, if it is not public, or its end. */
  lemma AppChanges(h: Hash, s: Store, a: Action, client: Id)
    requires Enabled(h, s, a) && client in s.apps && client in s.drawn
    ensures client in Do(h, s, a).apps && client in Do(h, s, a).drawn
    ensures var app, app' := s.apps[client], Do(h, s, a).apps[client];
            || app' == app
            || (a.RotateSecret? && a.client == client && a.owner == app.owner && !app.public && !app.revoked
                && app' == app.(secret := Some(a.value)))
            || (a.RevokeApp? && a.client == client && a.owner == app.owner && app' == app.(revoked := true))
  {
  }

  lemma NewApp(h: Hash, s: Store, a: Action, client: Id)
    requires Enabled(h, s, a) && client in Do(h, s, a).apps && client !in s.apps
    ensures a.CreateApp? && client == a.value && client in Do(h, s, a).drawn
    ensures var app := Do(h, s, a).apps[client];
            && app.owner == a.owner && app.redirects == a.redirects && app.allowed == a.allowed && app.public == a.public
            && !app.revoked && app.secret == if a.public then None else Some(a.csrf)
  {
  }

  /** An application has a secret exactly when it is not public, and asks only for known
      scopes. */
  ghost predicate AppsSound(s: Store) {
    forall c <- s.apps ::
      && c in s.drawn && (s.apps[c].secret.Some? <==> !s.apps[c].public)
      && s.apps[c].redirects != [] && s.apps[c].allowed != []
      && forall w <- s.apps[c].allowed :: w == "identify" || w == "servers" || w == "server_members" || w == "permissions"
  }

  lemma NewAppSound(h: Hash, s: Store, a: Action)
    requires Enabled(h, s, a) && a.CreateApp?
    ensures a.redirects != [] && a.allowed != []
    ensures forall w <- a.allowed :: w == "identify" || w == "servers" || w == "server_members" || w == "permissions"
  {
  }

  lemma AppsSoundStep(h: Hash, s: Store, a: Action)
    requires AppsSound(s)
    ensures AppsSound(Step(h, s, a))
  {
    if Enabled(h, s, a) {
      var s' := Do(h, s, a);
      forall c | c in s'.apps
        ensures c in s'.drawn && (s'.apps[c].secret.Some? <==> !s'.apps[c].public)
        ensures s'.apps[c].redirects != [] && s'.apps[c].allowed != []
        ensures forall w <- s'.apps[c].allowed :: w == "identify" || w == "servers" || w == "server_members" || w == "permissions"
      {
        if c in s.apps {
          AppChanges(h, s, a, c);
        } else {
          NewApp(h, s, a, c);
          NewAppSound(h, s, a);
        }
      }
    }
  }

  /** Over every run an application has a secret exactly when it is not public. */
  lemma {:induction false} AppsSoundRun(h: Hash, s: Store, actions: seq<Action>)
    requires AppsSound(s)
    ensures AppsSound(Run(h, s, actions))
    decreases actions
  {
    if actions != [] {
      AppsSoundStep(h, s, actions[0]);
      AppsSoundRun(h, Step(h, s, actions[0]), actions[1..]);
    }
  }

  /** A confidential application with this secret. */
  predicate SecretIs(s: Store, client: Id, value: Secret) {
    client in s.apps && client in s.drawn && !s.apps[client].public && s.apps[client].secret == Some(value)
  }

  predicate Rotates(a: Action, client: Id) {
    a.RotateSecret? && a.client == client
  }

  lemma {:induction false} SecretStays(h: Hash, s: Store, actions: seq<Action>, client: Id, value: Secret)
    requires SecretIs(s, client, value) && forall a <- actions :: !Rotates(a, client)
    ensures SecretIs(Run(h, s, actions), client, value)
    decreases actions
  {
    if actions != [] {
      if Enabled(h, s, actions[0]) {
        AppChanges(h, s, actions[0], client);
        assert !Rotates(actions[0], client);
      }
      SecretStays(h, Step(h, s, actions[0]), actions[1..], client, value);
    }
  }

  lemma RotationSets(h: Hash, actions: seq<Action>, client: Id, owner: Id, value: Secret)
    requires Enabled(h, Run(h, EMPTY, actions), RotateSecret(client, owner, value))
    ensures SecretIs(Run(h, EMPTY, actions + [RotateSecret(client, owner, value)]), client, value)
  {
    var a := RotateSecret(client, owner, value);
    RunLast(h, actions, a);
    AppsSoundRun(h, EMPTY, actions);
  }

  lemma AdmittedExactly(h: Hash, s: Store, client: Id, value: Secret, pid: nat, secret: Option<Secret>, code: Secret,
                        redirect: Option<string>, verifier: Option<Bytes>, token: Secret)
    requires SecretIs(s, client, value)
    ensures Enabled(h, s, Exchange(pid, client, secret, code, redirect, verifier)) <==>
            pid !in s.flights && !s.apps[client].revoked && secret == Some(value)
    ensures Enabled(h, s, PresentRefresh(pid, client, secret, token)) <==> pid !in s.flights && secret == Some(value)
    ensures Enabled(h, s, RevokeToken(pid, token, Some(client), secret)) <==> pid !in s.flights && secret == Some(value)
  {
  }

  /** From a rotation to the next one, exactly the new secret admits the client's requests:
      every other value, the old secret included, is turned away in every later state. */
  lemma OnlyTheNewSecret(
    h: Hash, before: seq<Action>, client: Id, owner: Id, value: Secret, after: seq<Action>,
    pid: nat, secret: Option<Secret>, code: Secret, redirect: Option<string>, verifier: Option<Bytes>, token: Secret)
    requires Enabled(h, Run(h, EMPTY, before), RotateSecret(client, owner, value))
    requires forall a <- after :: !Rotates(a, client)
    ensures var s := Run(h, EMPTY, before + [RotateSecret(client, owner, value)] + after);
            && client in s.apps
            && (Enabled(h, s, Exchange(pid, client, secret, code, redirect, verifier)) <==>
                pid !in s.flights && !s.apps[client].revoked && secret == Some(value))
            && (Enabled(h, s, PresentRefresh(pid, client, secret, token)) <==> pid !in s.flights && secret == Some(value))
            && (Enabled(h, s, RevokeToken(pid, token, Some(client), secret)) <==> pid !in s.flights && secret == Some(value))
  {
    var rotated := before + [RotateSecret(client, owner, value)];
    RotationSets(h, before, client, owner, value);
    SecretStays(h, Run(h, EMPTY, rotated), after, client, value);
    RunAppend(h, EMPTY, rotated, after);
    AdmittedExactly(h, Run(h, EMPTY, rotated + after), client, value, pid, secret, code, redirect, verifier, token);
  }

  // ---------------------------------------------------------------------
  // Dropped tokens

  predicate DeadAccess(s: Store, t: Secret) {
    t in s.drawn && (t in s.access ==> s.access[t].revoked)
  }

  predicate DeadRefresh(s: Store, t: Secret) {
    t in s.drawn && (t in s.refresh ==> s.refresh[t].revoked)
  }

  lemma DeadAccessStep(h: Hash, s: Store, a: Action, t: Secret)
    requires DeadAccess(s, t) && Enabled(h, s, a)
    ensures DeadAccess(Do(h, s, a), t)
  {
  }

  lemma DeadRefreshStep(h: Hash, s: Store, a: Action, t: Secret)
    requires DeadRefresh(s, t) && Enabled(h, s, a)
    ensures DeadRefresh(Do(h, s, a), t)
  {
  }

  lemma {:induction false} DeadStays(h: Hash, s: Store, actions: seq<Action>, t: Secret)
    ensures DeadAccess(s, t) ==> DeadAccess(Run(h, s, actions), t)
    ensures DeadRefresh(s, t) ==> DeadRefresh(Run(h, s, actions), t)
    decreases actions
  {
    if actions != [] {
      if Enabled(h, s, actions[0]) && DeadAccess(s, t) {
        DeadAccessStep(h, s, actions[0], t);
      }
      if Enabled(h, s, actions[0]) && DeadRefresh(s, t) {
        DeadRefreshStep(h, s, actions[0], t);
      }
      DeadStays(h, Step(h, s, actions[0]), actions[1..], t);
    }
  }

  lemma DropsAccess(h: Hash, s: Store, pid: nat, t: Secret)
    requires pid in s.flights && s.flights[pid] == DroppingAccess(t) && t in s.drawn
    ensures var s' := Step(h, s, DropAccess(pid));
            DeadAccess(s', t) && t in s'.drawn && pid in s'.flights && s'.flights[pid] == DroppingRefresh(t)
  {
  }

  lemma DropsRefresh(h: Hash, s: Store, pid: nat, t: Secret)
    requires pid in s.flights && s.flights[pid] == DroppingRefresh(t) && t in s.drawn
    ensures DeadRefresh(Step(h, s, DropRefresh(pid)), t)
  {
  }

  lemma RevokeTokenAccepted(h: Hash, s: Store, pid: nat, t: Secret, clientId: Option<Id>, secret: Option<Secret>)
    requires Enabled(h, s, RevokeToken(pid, t, clientId, secret))
    ensures var s' := Step(h, s, RevokeToken(pid, t, clientId, secret));
            s'.drawn == s.drawn && pid in s'.flights && s'.flights[pid] == DroppingAccess(t)
  {
  }

  /** A token whose revocation request is accepted and runs through is live in no later state,
      whether it is an access or a refresh token. */
  lemma RevokedTokenStaysDead(
    h: Hash, s: Store, pid: nat, t: Secret, clientId: Option<Id>, secret: Option<Secret>, after: seq<Action>)
    requires Enabled(h, s, RevokeToken(pid, t, clientId, secret)) && t in s.drawn
    ensures var s' := Run(h, s, [RevokeToken(pid, t, clientId, secret), DropAccess(pid), DropRefresh(pid)] + after);
            !LiveAccess(s', t) && !LiveRefresh(s', t)
  {
    var a, b, c := RevokeToken(pid, t, clientId, secret), DropAccess(pid), DropRefresh(pid);
    var s1 := Step(h, s, a);
    var s2 := Step(h, s1, b);
    var s3 := Step(h, s2, c);
    RevokeTokenAccepted(h, s, pid, t, clientId, secret);
    DropsAccess(h, s1, pid, t);
    DropsRefresh(h, s2, pid, t);
    RunOne(h, s2, c);
    DeadStays(h, s2, [c], t);
    RunTwo(h, s, a, b);
    RunAppend(h, s, [a, b], [c]);
    assert [a, b] + [c] == [a, b, c];
    RunAppend(h, s, [a, b, c], after);
    DeadStays(h, s3, after, t);
  }

  // ---------------------------------------------------------------------
  // Lifetimes

  /** Operation `j` stored the record, `ttl` seconds before it expires. */
  ghost predicate StoredAt(h: Hash, actions: seq<Action>, j: nat, value: Secret, expires: int, ttl: int) {
    && j < |actions|
    && (actions[j].StoreConsent? || actions[j].StoreCode? || actions[j].StoreAccess? || actions[j].StoreRefresh?)
    && actions[j].value == value && expires == Before(h, actions, j).now + ttl
  }

  ghost predicate Dated(h: Hash, actions: seq<Action>, value: Secret, expires: int, ttl: int) {
    exists j :: StoredAt(h, actions, j, value, expires, ttl)
  }

  lemma DatedLater(h: Hash, actions: seq<Action>, a: Action, value: Secret, expires: int, ttl: int)
    requires Dated(h, actions, value, expires, ttl)
    ensures Dated(h, actions + [a], value, expires, ttl)
  {
    var j :| StoredAt(h, actions, j, value, expires, ttl);
    BeforeSame(h, actions, a, j);
    assert StoredAt(h, actions + [a], j, value, expires, ttl);
  }

  lemma DatedNow(h: Hash, actions: seq<Action>, a: Action, expires: int, ttl: int)
    requires a.StoreConsent? || a.StoreCode? || a.StoreAccess? || a.StoreRefresh?
    requires expires == Run(h, EMPTY, actions).now + ttl
    ensures Dated(h, actions + [a], a.value, expires, ttl)
  {
    BeforeLast(h, actions, a);
    assert StoredAt(h, actions + [a], |actions|, a.value, expires, ttl);
  }

  /** When record `x` of one of the four collections expires. */
  predicate ConsentExpires(s: Store, x: Secret, e: int) { x in s.consents && s.consents[x].expires == e }

  predicate CodeExpires(s: Store, x: Secret, e: int) { x in s.codes && s.codes[x].expires == e }

  predicate AccessExpires(s: Store, x: Secret, e: int) { x in s.access && s.access[x].expires == e }

  predicate RefreshExpires(s: Store, x: Secret, e: int) { x in s.refresh && s.refresh[x].expires == e }

  lemma ConsentDate(h: Hash, s: Store, a: Action, x: Secret, e: int)
    requires ConsentExpires(Step(h, s, a), x, e)
    ensures ConsentExpires(s, x, e) || (a.StoreConsent? && a.value == x && e == s.now + 300)
  {
  }

  lemma ConsentDated(h: Hash, actions: seq<Action>, a: Action, x: Secret, e: int)
    requires ConsentExpires(Run(h, EMPTY, actions), x, e) ==> Dated(h, actions, x, e, 300)
    ensures ConsentExpires(Step(h, Run(h, EMPTY, actions), a), x, e) ==> Dated(h, actions + [a], x, e, 300)
  {
    var s := Run(h, EMPTY, actions);
    if ConsentExpires(Step(h, s, a), x, e) {
      ConsentDate(h, s, a, x, e);
      DatedStep(h, actions, a, x, e, 300, ConsentExpires(s, x, e));
    }
  }

  lemma CodeDate(h: Hash, s: Store, a: Action, x: Secret, e: int)
    requires CodeExpires(Step(h, s, a), x, e)
    ensures CodeExpires(s, x, e) || (a.StoreCode? && a.value == x && e == s.now + 300)
  {
  }

  lemma CodeDated(h: Hash, actions: seq<Action>, a: Action, x: Secret, e: int)
    requires CodeExpires(Run(h, EMPTY, actions), x, e) ==> Dated(h, actions, x, e, 300)
    ensures CodeExpires(Step(h, Run(h, EMPTY, actions), a), x, e) ==> Dated(h, actions + [a], x, e, 300)
  {
    var s := Run(h, EMPTY, actions);
    if CodeExpires(Step(h, s, a), x, e) {
      CodeDate(h, s, a, x, e);
      DatedStep(h, actions, a, x, e, 300, CodeExpires(s, x, e));
    }
  }

  lemma AccessDate(h: Hash, s: Store, a: Action, x: Secret, e: int)
    requires AccessExpires(Step(h, s, a), x, e)
    ensures AccessExpires(s, x, e) || (a.StoreAccess? && a.value == x && e == s.now + 600)
  {
  }

  lemma AccessDated(h: Hash, actions: seq<Action>, a: Action, x: Secret, e: int)
    requires AccessExpires(Run(h, EMPTY, actions), x, e) ==> Dated(h, actions, x, e, 600)
    ensures AccessExpires(Step(h, Run(h, EMPTY, actions), a), x, e) ==> Dated(h, actions + [a], x, e, 600)
  {
    var s := Run(h, EMPTY, actions);
    if AccessExpires(Step(h, s, a), x, e) {
      AccessDate(h, s, a, x, e);
      DatedStep(h, actions, a, x, e, 600, AccessExpires(s, x, e));
    }
  }

  lemma RefreshDate(h: Hash, s: Store, a: Action, x: Secret, e: int)
    requires RefreshExpires(Step(h, s, a), x, e)
    ensures RefreshExpires(s, x, e) || (a.StoreRefresh? && a.value == x && e == s.now + 2592000)
  {
  }

  lemma RefreshDated(h: Hash, actions: seq<Action>, a: Action, x: Secret, e: int)
    requires RefreshExpires(Run(h, EMPTY, actions), x, e) ==> Dated(h, actions, x, e, 2592000)
    ensures RefreshExpires(Step(h, Run(h, EMPTY, actions), a), x, e) ==> Dated(h, actions + [a], x, e, 2592000)
  {
    var s := Run(h, EMPTY, actions);
    if RefreshExpires(Step(h, s, a), x, e) {
      RefreshDate(h, s, a, x, e);
      DatedStep(h, actions, a, x, e, 2592000, RefreshExpires(s, x, e));
    }
  }

  /** In every interleaving, a consent request and a code last 300 seconds from the operation
      that stored them, an access token 600 and a refresh token 2592000 (thirty days). */
  lemma {:induction false} LifetimesHold(h: Hash, actions: seq<Action>, x: Secret, e: int)
    ensures var s := Run(h, EMPTY, actions);
            && (ConsentExpires(s, x, e) ==> Dated(h, actions, x, e, 300))
            && (CodeExpires(s, x, e) ==> Dated(h, actions, x, e, 300))
            && (AccessExpires(s, x, e) ==> Dated(h, actions, x, e, 600))
            && (RefreshExpires(s, x, e) ==> Dated(h, actions, x, e, 2592000))
  {
    if actions != [] {
      var init, a := actions[..|actions| - 1], actions[|actions| - 1];
      assert actions == init + [a];
      LifetimesHold(h, init, x, e);
      RunLast(h, init, a);
      ConsentDated(h, init, a, x, e);
      CodeDated(h, init, a, x, e);
      AccessDated(h, init, a, x, e);
      RefreshDated(h, init, a, x, e);
    }
  }

  lemma DatedStep(h: Hash, actions: seq<Action>, a: Action, x: Secret, e: int, ttl: int, known: bool)
    requires if known then Dated(h, actions, x, e, ttl)
             else (a.StoreConsent? || a.StoreCode? || a.StoreAccess? || a.StoreRefresh?)
                  && a.value == x && e == Run(h, EMPTY, actions).now + ttl
    ensures Dated(h, actions + [a], x, e, ttl)
  {
    if known {
      DatedLater(h, actions, a, x, e, ttl);
    } else {
      DatedNow(h, actions, a, e, ttl);
    }
  }
}
