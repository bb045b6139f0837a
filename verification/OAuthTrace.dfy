/** Behind every token, the requests that led to it, found in the run itself: who asked, who
    approved, and with which secret the client proved itself at that moment. */
module OAuthTrace {
  import opened Entities
  import opened Scopes
  import opened Compare
  import opened OAuth
  import opened OAuthFamilies
  import opened OAuthProvenance

  /** The state that operation `j` of a run meets. */
  function Before(h: Hash, actions: seq<Action>, j: nat): Store
    requires j < |actions|
  {
    Run(h, EMPTY, actions[..j])
  }

  lemma BeforeSame(h: Hash, actions: seq<Action>, a: Action, j: nat)
    requires j < |actions|
    ensures Before(h, actions + [a], j) == Before(h, actions, j) && (actions + [a])[j] == actions[j]
  {
    assert (actions + [a])[..j] == actions[..j];
  }

  lemma BeforeLast(h: Hash, actions: seq<Action>, a: Action)
    ensures Before(h, actions + [a], |actions|) == Run(h, EMPTY, actions) && (actions + [a])[|actions|] == a
  {
    assert (actions + [a])[..|actions|] == actions;
  }

  lemma RunLast(h: Hash, actions: seq<Action>, a: Action)
    ensures Run(h, EMPTY, actions + [a]) == Step(h, Run(h, EMPTY, actions), a)
  {
    RunAppend(h, EMPTY, actions, [a]);
    RunOne(h, Run(h, EMPTY, actions), a);
  }

  // ---------------------------------------------------------------------
  // What the run must contain

  /** Operation `j` presents the code or the refresh token for this client, and proves it: an
      application that is not public has a stored secret at that moment, and the request
      carries exactly that one. A code is not accepted for a revoked application. */
  ghost predicate PresentedAt(h: Hash, actions: seq<Action>, j: nat, source: Source, client: Id) {
    && j < |actions| && (actions[j].Exchange? || actions[j].PresentRefresh?) && actions[j].client == client
    && var s, a := Before(h, actions, j), actions[j];
       && client in s.apps
       && (!s.apps[client].public ==> s.apps[client].secret.Some? && a.secret == s.apps[client].secret)
       && match source
          case FromCode(code, verifier) =>
            a.Exchange? && a.code == code && a.verifier == verifier && !s.apps[client].revoked
          case FromRefresh(token) => a.PresentRefresh? && a.token == token
  }

  /** Operation `k` takes the code or the refresh token: it is the client's, has not been used
      before and has not expired. */
  ghost predicate TakenAt(h: Hash, actions: seq<Action>, k: nat, source: Source, grant: Grant) {
    && k < |actions|
    && var s, a := Before(h, actions, k), actions[k];
       match source
       case FromCode(code, _) =>
         a.TakeCode? && code in s.codes && s.codes[code].grant == grant && !s.codes[code].used && s.codes[code].expires > s.now
       case FromRefresh(token) =>
         a.TakeRefresh? && token in s.refresh && s.refresh[token].grant == grant && !s.refresh[token].revoked
         && s.refresh[token].expires > s.now
  }

  /** Presented first, then taken, with the redirect address the code was given for. */
  ghost predicate IssuedFor(
    h: Hash, actions: seq<Action>, j: nat, k: nat, s: Store, source: Source, grant: Grant)
  {
    && j < k && PresentedAt(h, actions, j, source, grant.client) && TakenAt(h, actions, k, source, grant)
    && (source.FromCode? ==> source.code in s.codes && source.code in s.drawn
                             && actions[j].redirect == Some(s.codes[source.code].redirect))
  }

  /** Operation `j` approves the request: by the user it asks, with its form token, while it
      was open. */
  ghost predicate ApprovedAt(h: Hash, actions: seq<Action>, j: nat, request: Secret, c: Consent) {
    && j < |actions| && actions[j].Approve? && actions[j].request == request
    && var s, a := Before(h, actions, j), actions[j];
       && a.user == c.grant.user && a.csrf == c.csrf && s.now < c.expires
       && request in s.consents && !s.consents[request].used
  }

  /** The application may ask for this: it is not revoked, the redirect address is
      registered, each scope is known and allowed, a public application brings an S256
      challenge, no other method is named, and the challenge is not longer than 256 bytes. */
  predicate AppMay(app: App, words: seq<string>, redirect: string, challenge: Option<Bytes>, s256: Option<bool>) {
    && !app.revoked && redirect in app.redirects && words != []
    && (forall w <- words ::
          w in app.allowed && (w == "identify" || w == "servers" || w == "server_members" || w == "permissions"))
    && (app.public ==> challenge.Some? && s256 == Some(true))
    && (s256.Some? ==> s256.value) && (challenge.Some? ==> |challenge.value| <= 256)
  }

  /** Operation `j` asks for what a consent is about, and the application may. */
  ghost predicate AskedAt(
    h: Hash, actions: seq<Action>, j: nat, grant: Grant, redirect: string, challenge: Option<Bytes>)
  {
    && j < |actions| && actions[j].Authorize?
    && var s, a := Before(h, actions, j), actions[j];
       && a.user == grant.user && a.client == grant.client && a.uri == redirect && a.challenge == challenge
       && Split(a.scope) == Split(grant.scope)
       && grant.client in s.apps && AppMay(s.apps[grant.client], Split(grant.scope), redirect, challenge, a.s256)
  }

  // ---------------------------------------------------------------------
  // The run contains it

  ghost predicate FlightTraced(h: Hash, actions: seq<Action>, s: Store, f: Flight) {
    match f
    case Exchanging(client, code, uri, verifier) =>
      exists j: nat :: PresentedAt(h, actions, j, FromCode(code, verifier), client) && actions[j].redirect == uri
    case Refreshing(client, token) => exists j :: PresentedAt(h, actions, j, FromRefresh(token), client)
    case Issuing(source, issue, _) => exists j, k :: IssuedFor(h, actions, j, k, s, source, issue)
    case Issued(source, issue, _, _) => exists j, k :: IssuedFor(h, actions, j, k, s, source, issue)
    case Approved(request) =>
      request in s.consents && request in s.drawn && exists j :: ApprovedAt(h, actions, j, request, s.consents[request])
    case Authorizing(grant, redirect, challenge) => exists j :: AskedAt(h, actions, j, grant, redirect, challenge)
    case Reused(client, token) => exists j :: PresentedAt(h, actions, j, FromRefresh(token), client)
    case Killing(family) => exists j, token :: ReusedAt(h, actions, j, s, token, family)
    case _ => true
  }

  /** Operation `j` presents a refresh token of the family, in the name of the client it was
      given to. */
  ghost predicate ReusedAt(h: Hash, actions: seq<Action>, j: nat, s: Store, token: Secret, family: Secret) {
    && token in s.refresh && token in s.drawn && s.refresh[token].family == family
    && PresentedAt(h, actions, j, FromRefresh(token), s.refresh[token].grant.client)
  }

  ghost predicate ConsentTraced(h: Hash, actions: seq<Action>, s: Store, r: Secret)
    requires r in s.consents
  {
    var c := s.consents[r];
    r in s.drawn && exists j :: AskedAt(h, actions, j, c.grant, c.redirect, c.challenge)
  }

  ghost predicate CodeApproved(h: Hash, actions: seq<Action>, s: Store, k: Secret)
    requires k in s.consentOf
  {
    var r := s.consentOf[k];
    k in s.drawn && r in s.drawn && r in s.consents && exists j :: ApprovedAt(h, actions, j, r, s.consents[r])
  }

  ghost predicate ResponseTraced(h: Hash, actions: seq<Action>, s: Store, r: Response) {
    exists j, k :: IssuedFor(h, actions, j, k, s, r.source, r.grant)
  }

  ghost predicate RunTraced(h: Hash, actions: seq<Action>) {
    var s := Run(h, EMPTY, actions);
    && KeysDrawn(s)
    && (forall p <- s.flights :: FlightTraced(h, actions, s, s.flights[p]))
    && (forall r <- s.consents :: ConsentTraced(h, actions, s, r))
    && (forall k <- s.consentOf :: CodeApproved(h, actions, s, k))
    && (forall r <- s.responses :: ResponseTraced(h, actions, s, r))
  }

  ghost predicate KeysDrawn(s: Store) {
    (forall k <- s.codes :: k in s.drawn) && (forall t <- s.refresh :: t in s.drawn)
  }

  // ---------------------------------------------------------------------
  // A longer run still contains it

  lemma PresentedLater(h: Hash, actions: seq<Action>, a: Action, j: nat, source: Source, client: Id)
    requires PresentedAt(h, actions, j, source, client)
    ensures PresentedAt(h, actions + [a], j, source, client) && (actions + [a])[j] == actions[j]
  {
    BeforeSame(h, actions, a, j);
  }

  lemma TakenLater(h: Hash, actions: seq<Action>, a: Action, k: nat, source: Source, grant: Grant)
    requires TakenAt(h, actions, k, source, grant)
    ensures TakenAt(h, actions + [a], k, source, grant)
  {
    BeforeSame(h, actions, a, k);
  }

  lemma AskedLater(
    h: Hash, actions: seq<Action>, a: Action, j: nat, grant: Grant, redirect: string, challenge: Option<Bytes>)
    requires AskedAt(h, actions, j, grant, redirect, challenge)
    ensures AskedAt(h, actions + [a], j, grant, redirect, challenge)
  {
    BeforeSame(h, actions, a, j);
  }

  lemma ApprovedLater(h: Hash, actions: seq<Action>, a: Action, j: nat, r: Secret, c: Consent, d: Consent)
    requires ApprovedAt(h, actions, j, r, c) && SameConsent(c, d)
    ensures ApprovedAt(h, actions + [a], j, r, d)
  {
    BeforeSame(h, actions, a, j);
  }

  /** What was stored stays, but for being used. */
  ghost predicate Grown(s: Store, s': Store) {
    forall x <- s.drawn :: GrownAt(s, s', x)
  }

  predicate GrownAt(s: Store, s': Store, x: Secret) {
    && x in s'.drawn
    && (x in s.consents ==> x in s'.consents && SameConsent(s.consents[x], s'.consents[x]))
    && (x in s.codes ==> x in s'.codes && SameCode(s.codes[x], s'.codes[x]))
    && (x in s.refresh ==> x in s'.refresh && SameToken(s.refresh[x], s'.refresh[x]))
  }

  predicate SameToken(c: Refresh, d: Refresh) {
    c.family == d.family && c.grant == d.grant
  }

  lemma TokenKept(h: Hash, s: Store, a: Action, x: Secret)
    requires Enabled(h, s, a) && x in s.refresh && x in s.drawn
    ensures x in Do(h, s, a).refresh && SameToken(s.refresh[x], Do(h, s, a).refresh[x])
  {
  }

  lemma GrownStepAt(h: Hash, s: Store, a: Action, x: Secret)
    requires Enabled(h, s, a) && x in s.drawn
    ensures GrownAt(s, Do(h, s, a), x)
  {
    DrawnKept(h, s, a, x);
    if x in s.consents {
      ConsentKept(h, s, a, x);
    }
    if x in s.codes {
      CodeKept(h, s, a, x);
    }
    if x in s.refresh {
      TokenKept(h, s, a, x);
    }
  }

  lemma GrownStep(h: Hash, s: Store, a: Action)
    ensures Grown(s, Step(h, s, a))
  {
    if Enabled(h, s, a) {
      forall x | x in s.drawn
        ensures GrownAt(s, Do(h, s, a), x)
      {
        GrownStepAt(h, s, a, x);
      }
    }
  }

  lemma IssuedForLater(
    h: Hash, actions: seq<Action>, a: Action, j: nat, k: nat, s: Store, s': Store, source: Source, grant: Grant)
    requires IssuedFor(h, actions, j, k, s, source, grant) && Grown(s, s')
    ensures IssuedFor(h, actions + [a], j, k, s', source, grant)
  {
    PresentedLater(h, actions, a, j, source, grant.client);
    TakenLater(h, actions, a, k, source, grant);
  }

  lemma FlightLater(h: Hash, actions: seq<Action>, a: Action, s: Store, s': Store, f: Flight)
    requires FlightTraced(h, actions, s, f) && Grown(s, s')
    ensures FlightTraced(h, actions + [a], s', f)
  {
    match f
    case Exchanging(client, code, uri, verifier) =>
      var j: nat :| PresentedAt(h, actions, j, FromCode(code, verifier), client) && actions[j].redirect == uri;
      PresentedLater(h, actions, a, j, FromCode(code, verifier), client);
    case Refreshing(client, token) =>
      var j :| PresentedAt(h, actions, j, FromRefresh(token), client);
      PresentedLater(h, actions, a, j, FromRefresh(token), client);
    case Issuing(source, issue, _) =>
      var j, k :| IssuedFor(h, actions, j, k, s, source, issue);
      IssuedForLater(h, actions, a, j, k, s, s', source, issue);
    case Issued(source, issue, _, _) =>
      var j, k :| IssuedFor(h, actions, j, k, s, source, issue);
      IssuedForLater(h, actions, a, j, k, s, s', source, issue);
    case Approved(request) =>
      var j :| ApprovedAt(h, actions, j, request, s.consents[request]);
      ApprovedLater(h, actions, a, j, request, s.consents[request], s'.consents[request]);
    case Authorizing(grant, redirect, challenge) =>
      var j :| AskedAt(h, actions, j, grant, redirect, challenge);
      AskedLater(h, actions, a, j, grant, redirect, challenge);
    case Reused(client, token) =>
      var j :| PresentedAt(h, actions, j, FromRefresh(token), client);
      PresentedLater(h, actions, a, j, FromRefresh(token), client);
    case Killing(family) =>
      var j, token :| ReusedAt(h, actions, j, s, token, family);
      ReusedLater(h, actions, a, j, s, s', token, family);
    case _ =>
  }

  lemma ReusedLater(h: Hash, actions: seq<Action>, a: Action, j: nat, s: Store, s': Store, token: Secret, family: Secret)
    requires ReusedAt(h, actions, j, s, token, family) && Grown(s, s')
    ensures ReusedAt(h, actions + [a], j, s', token, family)
  {
    PresentedLater(h, actions, a, j, FromRefresh(token), s.refresh[token].grant.client);
  }

  lemma ConsentLater(h: Hash, actions: seq<Action>, a: Action, s: Store, s': Store, r: Secret)
    requires r in s.consents && ConsentTraced(h, actions, s, r) && Grown(s, s')
    ensures r in s'.consents && ConsentTraced(h, actions + [a], s', r)
  {
    var c := s.consents[r];
    var j :| AskedAt(h, actions, j, c.grant, c.redirect, c.challenge);
    AskedLater(h, actions, a, j, c.grant, c.redirect, c.challenge);
  }

  lemma ResponseLater(h: Hash, actions: seq<Action>, a: Action, s: Store, s': Store, source: Source, grant: Grant)
    requires Grown(s, s') && exists j, k :: IssuedFor(h, actions, j, k, s, source, grant)
    ensures exists j, k :: IssuedFor(h, actions + [a], j, k, s', source, grant)
  {
    var j, k :| IssuedFor(h, actions, j, k, s, source, grant);
    IssuedForLater(h, actions, a, j, k, s, s', source, grant);
  }

  // ---------------------------------------------------------------------
  // One more operation

  /** How operation `a` brings a request from `was` to `f`. */
  predicate FlightFrom(s: Store, a: Action, was: Option<Flight>, f: Flight) {
    || was == Some(f)
    || match f
       case Exchanging(client, code, uri, verifier) =>
         a.Exchange? && client == a.client && code == a.code && uri == a.redirect && verifier == a.verifier
       case Refreshing(client, token) => a.PresentRefresh? && client == a.client && token == a.token
       case Approved(request) => a.Approve? && request == a.request
       case Authorizing(grant, redirect, challenge) =>
         a.Authorize? && grant == Grant(a.client, a.user, Join(Split(a.scope))) && redirect == a.uri && challenge == a.challenge
       case Reused(client, token) => was == Some(Refreshing(client, token))
       case Killing(family) => was.Some? && Finds(s, was.value, family)
       case Issuing(source, issue, _) => was.Some? && IssueFrom(s, a, was.value, source, issue)
       case Issued(source, issue, _, _) => was.Some? && IssueFrom(s, a, was.value, source, issue)
       case _ => true
  }

  predicate Finds(s: Store, g: Flight, family: Secret) {
    && g.Reused? && g.token in s.refresh && s.refresh[g.token].grant.client == g.client
    && s.refresh[g.token].family == family
  }

  /** A code is taken by an exchange that named it, a refresh token by a request that
      presented it; storing the access token changes nothing of that. */
  predicate IssueFrom(s: Store, a: Action, g: Flight, source: Source, issue: Grant) {
    || (Rotating(g) && g.source == source && g.issue == issue)
    || (a.TakeCode? && CodeTaken(s, g, source, issue)) || (a.TakeRefresh? && TokenTaken(s, g, source, issue))
  }

  function At(s: Store, p: nat): Option<Flight> {
    if p in s.flights then Some(s.flights[p]) else None
  }

  lemma ExchangeMoved(h: Hash, s: Store, a: Action, p: nat)
    requires Enabled(h, s, a) && p in Do(h, s, a).flights && Do(h, s, a).flights[p].Exchanging?
    ensures FlightFrom(s, a, At(s, p), Do(h, s, a).flights[p])
  {
  }

  lemma RefreshMoved(h: Hash, s: Store, a: Action, p: nat)
    requires Enabled(h, s, a) && p in Do(h, s, a).flights && Do(h, s, a).flights[p].Refreshing?
    ensures FlightFrom(s, a, At(s, p), Do(h, s, a).flights[p])
  {
  }

  lemma ApprovalMoved(h: Hash, s: Store, a: Action, p: nat)
    requires Enabled(h, s, a) && p in Do(h, s, a).flights && Do(h, s, a).flights[p].Approved?
    ensures FlightFrom(s, a, At(s, p), Do(h, s, a).flights[p])
  {
  }

  lemma QuestionMoved(h: Hash, s: Store, a: Action, p: nat)
    requires Enabled(h, s, a) && p in Do(h, s, a).flights && Do(h, s, a).flights[p].Authorizing?
    ensures FlightFrom(s, a, At(s, p), Do(h, s, a).flights[p])
  {
  }

  lemma MissMoved(h: Hash, s: Store, a: Action, p: nat)
    requires Enabled(h, s, a) && p in Do(h, s, a).flights && Do(h, s, a).flights[p].Reused?
    ensures FlightFrom(s, a, At(s, p), Do(h, s, a).flights[p])
  {
  }

  lemma KillMoved(h: Hash, s: Store, a: Action, p: nat)
    requires Enabled(h, s, a) && p in Do(h, s, a).flights && Do(h, s, a).flights[p].Killing?
    ensures FlightFrom(s, a, At(s, p), Do(h, s, a).flights[p])
  {
  }

  lemma IssueMoved(h: Hash, s: Store, a: Action, p: nat)
    requires Enabled(h, s, a) && p in Do(h, s, a).flights && Rotating(Do(h, s, a).flights[p])
    ensures FlightFrom(s, a, At(s, p), Do(h, s, a).flights[p])
  {
  }

  lemma FlightMoved(h: Hash, s: Store, a: Action, p: nat)
    requires Enabled(h, s, a) && p in Do(h, s, a).flights
    ensures FlightFrom(s, a, At(s, p), Do(h, s, a).flights[p])
  {
    match Do(h, s, a).flights[p]
    case Exchanging(_, _, _, _) => ExchangeMoved(h, s, a, p);
    case Refreshing(_, _) => RefreshMoved(h, s, a, p);
    case Approved(_) => ApprovalMoved(h, s, a, p);
    case Authorizing(_, _, _) => QuestionMoved(h, s, a, p);
    case Reused(_, _) => MissMoved(h, s, a, p);
    case Killing(_) => KillMoved(h, s, a, p);
    case Issuing(_, _, _) => IssueMoved(h, s, a, p);
    case Issued(_, _, _, _) => IssueMoved(h, s, a, p);
    case _ =>
  }

  /** The code is open, of the client, and given for the redirect address named. */
  predicate CodeTaken(s: Store, g: Flight, source: Source, issue: Grant) {
    && g.Exchanging? && source == FromCode(g.code, g.verifier) && g.code in s.codes && issue == s.codes[g.code].grant
    && g.client == issue.client && g.uri == Some(s.codes[g.code].redirect)
    && !s.codes[g.code].used && s.codes[g.code].expires > s.now
  }

  predicate TokenTaken(s: Store, g: Flight, source: Source, issue: Grant) {
    && g.Refreshing? && source == FromRefresh(g.token) && g.token in s.refresh && issue == s.refresh[g.token].grant
    && g.client == issue.client && !s.refresh[g.token].revoked && s.refresh[g.token].expires > s.now
  }

  /** What the checks of the token endpoint demand of the application. */
  lemma ExchangeChecked(h: Hash, s: Store, a: Action)
    requires (a.Exchange? || a.PresentRefresh?) && Enabled(h, s, a)
    ensures a.client in s.apps && (a.Exchange? ==> !s.apps[a.client].revoked)
    ensures !s.apps[a.client].public ==> s.apps[a.client].secret.Some? && a.secret == s.apps[a.client].secret
  {
  }

  lemma ExchangePresents(h: Hash, actions: seq<Action>, a: Action)
    requires a.Exchange? && Enabled(h, Run(h, EMPTY, actions), a)
    ensures PresentedAt(h, actions + [a], |actions|, FromCode(a.code, a.verifier), a.client)
    ensures (actions + [a])[|actions|].redirect == a.redirect
  {
    BeforeLast(h, actions, a);
    ExchangeChecked(h, Run(h, EMPTY, actions), a);
  }

  lemma RefreshPresents(h: Hash, actions: seq<Action>, a: Action)
    requires a.PresentRefresh? && Enabled(h, Run(h, EMPTY, actions), a)
    ensures PresentedAt(h, actions + [a], |actions|, FromRefresh(a.token), a.client)
  {
    BeforeLast(h, actions, a);
    ExchangeChecked(h, Run(h, EMPTY, actions), a);
  }

  lemma AuthorizeChecked(h: Hash, s: Store, a: Action)
    requires a.Authorize?
    ensures Enabled(h, s, a) <==>
            a.pid !in s.flights && a.client in s.apps
            && AppMay(s.apps[a.client], Split(a.scope), a.uri, a.challenge, a.s256)
  {
  }

  lemma AuthorizeAsks(h: Hash, actions: seq<Action>, a: Action)
    requires a.Authorize? && Enabled(h, Run(h, EMPTY, actions), a)
    ensures AskedAt(h, actions + [a], |actions|, Grant(a.client, a.user, Join(Split(a.scope))), a.uri, a.challenge)
  {
    BeforeLast(h, actions, a);
    AuthorizeChecked(h, Run(h, EMPTY, actions), a);
    SplitJoin(Split(a.scope));
  }

  /** The user of the consent approves it, with its form token, while it is open. */
  predicate Approves(s: Store, a: Action, c: Consent) {
    && a.Approve? && a.request in s.consents && !s.consents[a.request].used
    && a.user == c.grant.user && a.csrf == c.csrf && s.now < c.expires
  }

  lemma ApproveChecked(h: Hash, s: Store, a: Action)
    requires a.Approve? && Enabled(h, s, a)
    ensures a.request in Do(h, s, a).consents && Approves(s, a, Do(h, s, a).consents[a.request])
  {
  }

  lemma ApproveApproves(h: Hash, actions: seq<Action>, a: Action, c: Consent)
    requires Approves(Run(h, EMPTY, actions), a, c)
    ensures ApprovedAt(h, actions + [a], |actions|, a.request, c)
  {
    BeforeLast(h, actions, a);
  }

  lemma CodeTakes(h: Hash, actions: seq<Action>, a: Action, s: Store, s': Store, g: Flight, source: Source, issue: Grant)
    requires a.TakeCode? && s == Run(h, EMPTY, actions) && KeysDrawn(s) && Grown(s, s')
    requires CodeTaken(s, g, source, issue) && FlightTraced(h, actions, s, g)
    ensures exists j, k :: IssuedFor(h, actions + [a], j, k, s', source, issue)
  {
    var j: nat :| PresentedAt(h, actions, j, source, g.client) && actions[j].redirect == g.uri;
    PresentedLater(h, actions, a, j, source, g.client);
    BeforeLast(h, actions, a);
    assert IssuedFor(h, actions + [a], j, |actions|, s', source, issue);
  }

  lemma TokenTakes(h: Hash, actions: seq<Action>, a: Action, s: Store, s': Store, g: Flight, source: Source, issue: Grant)
    requires a.TakeRefresh? && s == Run(h, EMPTY, actions)
    requires TokenTaken(s, g, source, issue) && FlightTraced(h, actions, s, g)
    ensures exists j, k :: IssuedFor(h, actions + [a], j, k, s', source, issue)
  {
    var j :| PresentedAt(h, actions, j, source, g.client);
    PresentedLater(h, actions, a, j, source, g.client);
    BeforeLast(h, actions, a);
    assert IssuedFor(h, actions + [a], j, |actions|, s', source, issue);
  }

  lemma IssueTraced(h: Hash, actions: seq<Action>, a: Action, s: Store, s': Store, g: Flight, source: Source, issue: Grant)
    requires s == Run(h, EMPTY, actions) && KeysDrawn(s) && Grown(s, s') && FlightTraced(h, actions, s, g)
    requires || (Rotating(g) && g.source == source && g.issue == issue)
             || (a.TakeCode? && CodeTaken(s, g, source, issue)) || (a.TakeRefresh? && TokenTaken(s, g, source, issue))
    ensures exists j, k :: IssuedFor(h, actions + [a], j, k, s', source, issue)
  {
    if Rotating(g) {
      ResponseLater(h, actions, a, s, s', source, issue);
    } else if a.TakeCode? {
      CodeTakes(h, actions, a, s, s', g, source, issue);
    } else {
      TokenTakes(h, actions, a, s, s', g, source, issue);
    }
  }

  lemma KillTraced(h: Hash, actions: seq<Action>, a: Action, s: Store, s': Store, g: Flight, family: Secret)
    requires KeysDrawn(s) && Grown(s, s') && FlightTraced(h, actions, s, g) && Finds(s, g, family)
    ensures FlightTraced(h, actions + [a], s', Killing(family))
  {
    var j :| PresentedAt(h, actions, j, FromRefresh(g.token), g.client);
    assert ReusedAt(h, actions, j, s, g.token, family);
    ReusedLater(h, actions, a, j, s, s', g.token, family);
  }

  /** A request that begins with this operation. */
  lemma BeginTraced(h: Hash, actions: seq<Action>, a: Action, s: Store, s': Store, f: Flight)
    requires s == Run(h, EMPTY, actions) && Enabled(h, s, a) && FlightFrom(s, a, None, f)
    requires a.Approve? ==> a.request in s'.drawn && a.request in s'.consents && Approves(s, a, s'.consents[a.request])
    ensures FlightTraced(h, actions + [a], s', f)
  {
    match f
    case Exchanging(_, _, _, _) => ExchangePresents(h, actions, a);
    case Refreshing(_, _) => RefreshPresents(h, actions, a);
    case Approved(request) => ApproveApproves(h, actions, a, s'.consents[request]);
    case Authorizing(_, _, _) => AuthorizeAsks(h, actions, a);
    case _ =>
  }

  /** A request that goes on. */
  lemma MoveTraced(h: Hash, actions: seq<Action>, a: Action, s: Store, s': Store, g: Flight, f: Flight)
    requires s == Run(h, EMPTY, actions) && KeysDrawn(s) && Grown(s, s') && FlightTraced(h, actions, s, g)
    requires f == g || (FlightFrom(s, a, Some(g), f) && !FlightFrom(s, a, None, f))
    ensures FlightTraced(h, actions + [a], s', f)
  {
    if f == g || f.Reused? {
      FlightLater(h, actions, a, s, s', g);
    } else if Rotating(f) {
      IssueTraced(h, actions, a, s, s', g, f.source, f.issue);
    } else {
      KillTraced(h, actions, a, s, s', g, f.family);
    }
  }

  lemma FlightStep(h: Hash, actions: seq<Action>, a: Action, s: Store, s': Store, p: nat)
    requires RunTraced(h, actions) && s == Run(h, EMPTY, actions) && Enabled(h, s, a) && Grown(s, s')
    requires p in s'.flights && FlightFrom(s, a, At(s, p), s'.flights[p])
    requires a.Approve? ==> a.request in s'.consents && Approves(s, a, s'.consents[a.request])
    ensures FlightTraced(h, actions + [a], s', s'.flights[p])
  {
    if a.Approve? {
      assert ConsentTraced(h, actions, s, a.request);
    }
    if FlightFrom(s, a, None, s'.flights[p]) {
      BeginTraced(h, actions, a, s, s', s'.flights[p]);
    } else {
      MoveTraced(h, actions, a, s, s', s.flights[p], s'.flights[p]);
    }
  }

  lemma FlightsStep(h: Hash, actions: seq<Action>, a: Action, s: Store, s': Store)
    requires RunTraced(h, actions) && s == Run(h, EMPTY, actions) && Enabled(h, s, a) && s' == Do(h, s, a)
    ensures forall p <- s'.flights :: FlightTraced(h, actions + [a], s', s'.flights[p])
  {
    GrownStep(h, s, a);
    if a.Approve? {
      ApproveChecked(h, s, a);
    }
    forall p | p in s'.flights
      ensures FlightTraced(h, actions + [a], s', s'.flights[p])
    {
      FlightMoved(h, s, a, p);
      FlightStep(h, actions, a, s, s', p);
    }
  }

  lemma ConsentStored(h: Hash, s: Store, a: Action, r: Secret)
    requires Enabled(h, s, a) && r in Do(h, s, a).consents && r !in s.consents
    ensures a.StoreConsent? && a.value == r && s.flights[a.pid].Authorizing? && r in Do(h, s, a).drawn
    ensures var c, f := Do(h, s, a).consents[r], s.flights[a.pid];
            c.grant == f.grant && c.redirect == f.redirect && c.challenge == f.challenge
  {
  }

  lemma ConsentStep(h: Hash, actions: seq<Action>, a: Action, r: Secret)
    requires RunTraced(h, actions) && Enabled(h, Run(h, EMPTY, actions), a)
    requires r in Step(h, Run(h, EMPTY, actions), a).consents
    ensures ConsentTraced(h, actions + [a], Step(h, Run(h, EMPTY, actions), a), r)
  {
    var s := Run(h, EMPTY, actions);
    if r in s.consents {
      GrownStep(h, s, a);
      ConsentLater(h, actions, a, s, Step(h, s, a), r);
    } else {
      ConsentStored(h, s, a, r);
      var f := s.flights[a.pid];
      assert FlightTraced(h, actions, s, f);
      var j :| AskedAt(h, actions, j, f.grant, f.redirect, f.challenge);
      AskedLater(h, actions, a, j, f.grant, f.redirect, f.challenge);
    }
  }

  /** The request that a code stands on was approved, or is being approved. */
  lemma CodeOn(h: Hash, actions: seq<Action>, a: Action, k: Secret)
    requires RunTraced(h, actions) && Enabled(h, Run(h, EMPTY, actions), a)
    requires k in Step(h, Run(h, EMPTY, actions), a).consentOf
    ensures var s, s' := Run(h, EMPTY, actions), Step(h, Run(h, EMPTY, actions), a);
            var r := s'.consentOf[k];
            k in s'.drawn && r in s.drawn && r in s.consents && exists j :: ApprovedAt(h, actions, j, r, s.consents[r])
  {
    var s := Run(h, EMPTY, actions);
    if k in s.consentOf {
      assert CodeApproved(h, actions, s, k);
      ConsentOfKept(h, s, a, k);
    } else {
      NewConsentOf(h, s, a, k);
      NewCodeDrawn(h, s, a);
      assert FlightTraced(h, actions, s, s.flights[a.pid]);
    }
  }

  lemma CodeStep(h: Hash, actions: seq<Action>, a: Action, k: Secret)
    requires RunTraced(h, actions) && Enabled(h, Run(h, EMPTY, actions), a)
    requires k in Step(h, Run(h, EMPTY, actions), a).consentOf
    ensures CodeApproved(h, actions + [a], Step(h, Run(h, EMPTY, actions), a), k)
  {
    var s := Run(h, EMPTY, actions);
    CodeOn(h, actions, a, k);
    GrownStep(h, s, a);
    ApprovalLater(h, actions, a, s, Step(h, s, a), Step(h, s, a).consentOf[k]);
  }

  lemma ApprovalLater(h: Hash, actions: seq<Action>, a: Action, s: Store, s': Store, r: Secret)
    requires Grown(s, s') && r in s.consents && r in s.drawn && exists j :: ApprovedAt(h, actions, j, r, s.consents[r])
    ensures r in s'.drawn && r in s'.consents && exists j :: ApprovedAt(h, actions + [a], j, r, s'.consents[r])
  {
    var j :| ApprovedAt(h, actions, j, r, s.consents[r]);
    ApprovedLater(h, actions, a, j, r, s.consents[r], s'.consents[r]);
  }

  lemma NewCodeDrawn(h: Hash, s: Store, a: Action)
    requires Enabled(h, s, a) && a.StoreCode?
    ensures a.value in Do(h, s, a).drawn && s.flights[a.pid].Approved?
  {
  }

  lemma ResponseStored(h: Hash, s: Store, a: Action, r: Response)
    requires Enabled(h, s, a) && r in Do(h, s, a).responses && r !in s.responses
    ensures a.StoreRefresh? && a.pid in s.flights && s.flights[a.pid].Issued?
    ensures r.source == s.flights[a.pid].source && r.grant == s.flights[a.pid].issue
  {
  }

  lemma ResponseStep(h: Hash, actions: seq<Action>, a: Action, r: Response)
    requires RunTraced(h, actions) && Enabled(h, Run(h, EMPTY, actions), a)
    requires r in Step(h, Run(h, EMPTY, actions), a).responses
    ensures ResponseTraced(h, actions + [a], Step(h, Run(h, EMPTY, actions), a), r)
  {
    var s := Run(h, EMPTY, actions);
    if r in s.responses {
      assert ResponseTraced(h, actions, s, r);
    } else {
      ResponseStored(h, s, a, r);
      assert FlightTraced(h, actions, s, s.flights[a.pid]);
    }
    GrownStep(h, s, a);
    ResponseLater(h, actions, a, s, Step(h, s, a), r.source, r.grant);
  }

  lemma KeysDrawnStep(h: Hash, s: Store, a: Action)
    requires KeysDrawn(s) && Enabled(h, s, a)
    ensures KeysDrawn(Step(h, s, a))
  {
  }

  lemma IdleFlights(h: Hash, actions: seq<Action>, a: Action, s: Store)
    requires forall p <- s.flights :: FlightTraced(h, actions, s, s.flights[p])
    ensures forall p <- s.flights :: FlightTraced(h, actions + [a], s, s.flights[p])
  {
    forall p | p in s.flights
      ensures FlightTraced(h, actions + [a], s, s.flights[p])
    {
      FlightLater(h, actions, a, s, s, s.flights[p]);
    }
  }

  lemma IdleConsents(h: Hash, actions: seq<Action>, a: Action, s: Store)
    requires forall r <- s.consents :: ConsentTraced(h, actions, s, r)
    ensures forall r <- s.consents :: ConsentTraced(h, actions + [a], s, r)
  {
    forall r | r in s.consents
      ensures ConsentTraced(h, actions + [a], s, r)
    {
      ConsentLater(h, actions, a, s, s, r);
    }
  }

  lemma IdleCodes(h: Hash, actions: seq<Action>, a: Action, s: Store)
    requires forall k <- s.consentOf :: CodeApproved(h, actions, s, k)
    ensures forall k <- s.consentOf :: CodeApproved(h, actions + [a], s, k)
  {
    forall k | k in s.consentOf
      ensures CodeApproved(h, actions + [a], s, k)
    {
      assert CodeApproved(h, actions, s, k);
      ApprovalLater(h, actions, a, s, s, s.consentOf[k]);
    }
  }

  lemma IdleResponses(h: Hash, actions: seq<Action>, a: Action, s: Store)
    requires forall r <- s.responses :: ResponseTraced(h, actions, s, r)
    ensures forall r <- s.responses :: ResponseTraced(h, actions + [a], s, r)
  {
    forall r | r in s.responses
      ensures ResponseTraced(h, actions + [a], s, r)
    {
      assert ResponseTraced(h, actions, s, r);
      ResponseLater(h, actions, a, s, s, r.source, r.grant);
    }
  }

  /** An operation that is not possible changes nothing. */
  lemma IdleStep(h: Hash, actions: seq<Action>, a: Action, s: Store)
    requires RunTraced(h, actions) && s == Run(h, EMPTY, actions) == Run(h, EMPTY, actions + [a])
    ensures RunTraced(h, actions + [a])
  {
    IdleFlights(h, actions, a, s);
    IdleConsents(h, actions, a, s);
    IdleCodes(h, actions, a, s);
    IdleResponses(h, actions, a, s);
  }

  lemma BusyStep(h: Hash, actions: seq<Action>, a: Action, s': Store)
    requires RunTraced(h, actions) && Enabled(h, Run(h, EMPTY, actions), a)
    requires s' == Step(h, Run(h, EMPTY, actions), a) == Run(h, EMPTY, actions + [a])
    ensures RunTraced(h, actions + [a])
  {
    KeysDrawnStep(h, Run(h, EMPTY, actions), a);
    FlightsStep(h, actions, a, Run(h, EMPTY, actions), s');
    forall r | r in s'.consents
      ensures ConsentTraced(h, actions + [a], s', r)
    {
      ConsentStep(h, actions, a, r);
    }
    forall k | k in s'.consentOf
      ensures CodeApproved(h, actions + [a], s', k)
    {
      CodeStep(h, actions, a, k);
    }
    forall r | r in s'.responses
      ensures ResponseTraced(h, actions + [a], s', r)
    {
      ResponseStep(h, actions, a, r);
    }
  }

  lemma {:induction false} EveryRunTraced(h: Hash, actions: seq<Action>)
    ensures RunTraced(h, actions)
  {
    if actions != [] {
      var init, a := actions[..|actions| - 1], actions[|actions| - 1];
      assert actions == init + [a];
      EveryRunTraced(h, init);
      RunLast(h, init, a);
      if Enabled(h, Run(h, EMPTY, init), a) {
        BusyStep(h, init, a, Run(h, EMPTY, actions));
      } else {
        IdleStep(h, init, a, Run(h, EMPTY, init));
      }
    }
  }

  // ---------------------------------------------------------------------
  // Whole runs

  /** In every interleaving, each token response was asked for by a request of its client
      that named the same code and verifier, or the same refresh token, and that carried the
      application's stored secret of that moment, unless the application was public. The code
      or token was then taken while it was unused and had not expired, and for a code the
      request named the redirect address that the user was asked about. */
  lemma EveryResponseProved(h: Hash, actions: seq<Action>, r: Response)
    requires r in Run(h, EMPTY, actions).responses
    ensures exists j, k :: IssuedFor(h, actions, j, k, Run(h, EMPTY, actions), r.source, r.grant)
  {
    EveryRunTraced(h, actions);
    assert ResponseTraced(h, actions, Run(h, EMPTY, actions), r);
  }

  /** The consent request behind family `f`. */
  ghost predicate Behind(s: Store, f: Secret, r: Secret) {
    f in s.codeOf && s.codeOf[f] in s.consentOf && s.consentOf[s.codeOf[f]] == r && r in s.consents
  }

  /** The grant was asked for and approved in the run, the approval by the user of the grant,
      with the form token of the request, before it expired. */
  ghost predicate Allowed(h: Hash, actions: seq<Action>, s: Store, grant: Grant, r: Secret)
    requires r in s.consents
  {
    var c := s.consents[r];
    && c.grant == grant && (exists j :: ApprovedAt(h, actions, j, r, c))
    && (exists j :: AskedAt(h, actions, j, grant, c.redirect, c.challenge))
  }

  lemma FamilyAllowed(h: Hash, actions: seq<Action>, s: Store, f: Secret, grant: Grant)
    requires s == Run(h, EMPTY, actions) && RunTraced(h, actions) && CodesFromConsents(s) && FamilyFrom(s, f, grant)
    ensures exists r :: Behind(s, f, r) && Allowed(h, actions, s, grant, r)
  {
    var k := s.codeOf[f];
    var r := s.consentOf[k];
    assert CodeFrom(s, k, r);
    assert CodeApproved(h, actions, s, k);
    assert ConsentTraced(h, actions, s, r);
    assert Behind(s, f, r) && Allowed(h, actions, s, grant, r);
  }

  /** In every interleaving, behind each token is one consent with the token's user, client
      and scope that this user approved. */
  lemma EveryTokenApproved(h: Hash, actions: seq<Action>, t: Secret)
    ensures var s := Run(h, EMPTY, actions);
            && (t in s.refresh ==> exists r :: Behind(s, s.refresh[t].family, r) && Allowed(h, actions, s, s.refresh[t].grant, r))
            && (t in s.access ==> t in s.familyOf
                                  && exists r :: Behind(s, s.familyOf[t], r) && Allowed(h, actions, s, s.access[t].grant, r))
  {
    var s := Run(h, EMPTY, actions);
    EveryRunTraced(h, actions);
    TracedRun(h, EMPTY, actions);
    if t in s.refresh {
      FamilyAllowed(h, actions, s, s.refresh[t].family, s.refresh[t].grant);
    }
    if t in s.access {
      FamilyAllowed(h, actions, s, s.familyOf[t], s.access[t].grant);
    }
  }

  /** In every interleaving, a family is about to be killed only because a client it was given
      to has presented, and proved itself with, one of the family's own tokens. */
  lemma OnlyReuseKills(h: Hash, actions: seq<Action>, p: nat)
    requires var s := Run(h, EMPTY, actions); p in s.flights && s.flights[p].Killing?
    ensures var s := Run(h, EMPTY, actions);
            exists j, token :: ReusedAt(h, actions, j, s, token, s.flights[p].family)
  {
    EveryRunTraced(h, actions);
    var s := Run(h, EMPTY, actions);
    assert FlightTraced(h, actions, s, s.flights[p]);
  }
}
