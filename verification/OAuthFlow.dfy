/** What an honest client and its user get: the authorization flow and a refresh, each run
    through, end in live tokens for exactly what was asked and approved. */
module OAuthFlow {
  import opened Entities
  import opened Scopes
  import opened Compare
  import opened OAuth
  import opened OAuthFamilies
  import opened OAuthTrace

  /** The client's part: a registered address, allowed scopes, and a challenge if it is public
      or wants one. */
  datatype Ask = Ask(
    user: Id, client: Id, uri: string, scope: string, challenge: Option<Bytes>, s256: Option<bool>)

  function GrantOf(q: Ask): Grant {
    Grant(q.client, q.user, Join(Split(q.scope)))
  }

  /** The freshly drawn values of a flow. */
  datatype Values = Values(request: Secret, csrf: Secret, code: Secret, family: Secret, access: Secret, refresh: Secret)

  ghost predicate AllFresh(s: Store, v: Values) {
    && v.request !in s.drawn && v.csrf !in s.drawn && v.code !in s.drawn && v.family !in s.drawn
    && v.access !in s.drawn && v.refresh !in s.drawn
    && v.request != v.csrf && v.code !in {v.request, v.csrf} && v.family !in {v.request, v.csrf, v.code}
    && v.access !in {v.request, v.csrf, v.code, v.family} && v.refresh !in {v.request, v.csrf, v.code, v.family, v.access}
  }

  predicate Proves(app: App, secret: Option<Secret>) {
    app.public || (app.secret.Some? && secret == app.secret)
  }

  predicate Meets(h: Hash, challenge: Option<Bytes>, verifier: Option<Bytes>) {
    challenge.Some? ==> verifier.Some? && h(verifier.value) == challenge.value
  }

  // ---------------------------------------------------------------------
  // The user is asked

  lemma Asked(h: Hash, s: Store, pid: nat, q: Ask) returns (s': Store)
    requires pid !in s.flights && q.client in s.apps
    requires AppMay(s.apps[q.client], Split(q.scope), q.uri, q.challenge, q.s256)
    ensures s' == Step(h, s, Authorize(pid, q.user, q.client, q.uri, q.scope, q.challenge, q.s256))
    ensures s' == s.(flights := s.flights[pid := Authorizing(GrantOf(q), q.uri, q.challenge)])
  {
    var a := Authorize(pid, q.user, q.client, q.uri, q.scope, q.challenge, q.s256);
    AuthorizeChecked(h, s, a);
    s' := Step(h, s, a);
  }

  lemma Stored(h: Hash, s: Store, pid: nat, q: Ask, v: Values) returns (s': Store)
    requires pid in s.flights && s.flights[pid] == Authorizing(GrantOf(q), q.uri, q.challenge)
    requires v.request !in s.drawn && v.csrf !in s.drawn && v.request != v.csrf
    ensures s' == Step(h, s, StoreConsent(pid, v.request, v.csrf))
    ensures s'.now == s.now && s'.apps == s.apps && s'.drawn == s.drawn + {v.request, v.csrf} && pid !in s'.flights
    ensures v.request in s'.consents
    ensures s'.consents[v.request] == Consent(GrantOf(q), v.csrf, q.uri, q.challenge, s.now + 300, false)
    ensures s'.responses == s.responses
  {
    s' := Step(h, s, StoreConsent(pid, v.request, v.csrf));
  }

  lemma ApprovedBy(h: Hash, s: Store, pid: nat, q: Ask, v: Values) returns (s': Store)
    requires pid !in s.flights && v.request in s.consents
    requires s.consents[v.request] == Consent(GrantOf(q), v.csrf, q.uri, q.challenge, s.now + 300, false)
    ensures s' == Step(h, s, Approve(pid, q.user, v.request, v.csrf))
    ensures s'.now == s.now && s'.apps == s.apps && s'.drawn == s.drawn && s'.responses == s.responses
    ensures pid in s'.flights && s'.flights[pid] == Approved(v.request) && v.request in s'.consents
    ensures s'.consents[v.request] == Consent(GrantOf(q), v.csrf, q.uri, q.challenge, s.now + 300, true)
  {
    s' := Step(h, s, Approve(pid, q.user, v.request, v.csrf));
  }

  lemma CodeGiven(h: Hash, s: Store, pid: nat, q: Ask, v: Values) returns (s': Store)
    requires pid in s.flights && s.flights[pid] == Approved(v.request) && v.request in s.consents && v.code !in s.drawn
    requires s.consents[v.request] == Consent(GrantOf(q), v.csrf, q.uri, q.challenge, s.now + 300, true)
    ensures s' == Step(h, s, StoreCode(pid, v.code))
    ensures s'.now == s.now && s'.apps == s.apps && s'.drawn == s.drawn + {v.code} && s'.responses == s.responses
    ensures pid !in s'.flights && v.code in s'.codes
    ensures s'.codes[v.code] == Code(GrantOf(q), q.uri, q.challenge, s.now + 300, false)
  {
    s' := Step(h, s, StoreCode(pid, v.code));
  }

  // ---------------------------------------------------------------------
  // The client exchanges the code

  lemma Presented(h: Hash, s: Store, pid: nat, q: Ask, v: Values, secret: Option<Secret>, verifier: Option<Bytes>)
    returns (s': Store)
    requires pid !in s.flights && q.client in s.apps && !s.apps[q.client].revoked && Proves(s.apps[q.client], secret)
    ensures s' == Step(h, s, Exchange(pid, q.client, secret, v.code, Some(q.uri), verifier))
    ensures s' == s.(flights := s.flights[pid := Exchanging(q.client, v.code, Some(q.uri), verifier)])
  {
    s' := Step(h, s, Exchange(pid, q.client, secret, v.code, Some(q.uri), verifier));
  }

  lemma CodeAccepted(h: Hash, s: Store, pid: nat, q: Ask, v: Values, verifier: Option<Bytes>) returns (s': Store)
    requires pid in s.flights && s.flights[pid] == Exchanging(q.client, v.code, Some(q.uri), verifier)
    requires v.code in s.codes && s.codes[v.code] == Code(GrantOf(q), q.uri, q.challenge, s.now + 300, false)
    requires v.family !in s.drawn && Meets(h, q.challenge, verifier)
    ensures s' == Step(h, s, TakeCode(pid, v.family))
    ensures s'.now == s.now && s'.drawn == s.drawn + {v.family} && s'.responses == s.responses
    ensures pid in s'.flights && s'.flights[pid] == Issuing(FromCode(v.code, verifier), GrantOf(q), v.family)
  {
    s' := Step(h, s, TakeCode(pid, v.family));
  }

  /** An issuing request stores its two tokens and answers. */
  lemma Answered(h: Hash, s: Store, pid: nat, source: Source, grant: Grant, family: Secret, access: Secret, refresh: Secret)
    requires pid in s.flights && s.flights[pid] == Issuing(source, grant, family)
    requires access !in s.drawn && refresh !in s.drawn && access != refresh
    ensures var s' := Run(h, s, [StoreAccess(pid, access), StoreRefresh(pid, refresh)]);
            && LiveAccess(s', access) && s'.access[access].grant == grant
            && LiveRefresh(s', refresh) && s'.refresh[refresh].grant == grant && s'.refresh[refresh].family == family
            && s'.responses == s.responses + [Response(source, grant, family, access, refresh)]
            && (forall t :: t != refresh ==> (t in s'.refresh <==> t in s.refresh) && (t in s.refresh ==> s'.refresh[t] == s.refresh[t]))
  {
    var s1 := AccessStored(h, s, pid, source, grant, family, access);
    RefreshStored(h, s1, pid, source, grant, family, access, refresh);
    RunTwo(h, s, StoreAccess(pid, access), StoreRefresh(pid, refresh));
  }

  lemma AccessStored(h: Hash, s: Store, pid: nat, source: Source, grant: Grant, family: Secret, access: Secret) returns (s': Store)
    requires pid in s.flights && s.flights[pid] == Issuing(source, grant, family) && access !in s.drawn
    ensures s' == Step(h, s, StoreAccess(pid, access))
    ensures s'.now == s.now && s'.drawn == s.drawn + {access} && s'.refresh == s.refresh && s'.responses == s.responses
    ensures access in s'.access && s'.access[access] == Access(grant, s.now + 600, false)
    ensures pid in s'.flights && s'.flights[pid] == Issued(source, grant, family, access)
  {
    s' := Step(h, s, StoreAccess(pid, access));
  }

  lemma RefreshStored(
    h: Hash, s: Store, pid: nat, source: Source, grant: Grant, family: Secret, access: Secret, refresh: Secret)
    requires pid in s.flights && s.flights[pid] == Issued(source, grant, family, access) && refresh !in s.drawn
    ensures var s' := Step(h, s, StoreRefresh(pid, refresh));
            && s'.now == s.now && s'.access == s.access
            && s'.refresh == s.refresh[refresh := Refresh(family, grant, s.now + 2592000, false)]
            && s'.responses == s.responses + [Response(source, grant, family, access, refresh)]
  {
  }

  /** The flow of an honest client and an approving user, run through at one moment: it ends
      in a response with live tokens for the client, the user and the scopes asked for. */
  lemma HonestFlowSucceeds(
    h: Hash, s: Store, pid: nat, q: Ask, v: Values, secret: Option<Secret>, verifier: Option<Bytes>)
    requires pid !in s.flights && q.client in s.apps && AllFresh(s, v)
    requires AppMay(s.apps[q.client], Split(q.scope), q.uri, q.challenge, q.s256)
    requires Proves(s.apps[q.client], secret) && Meets(h, q.challenge, verifier)
    ensures var s' := Run(h, s, [Authorize(pid, q.user, q.client, q.uri, q.scope, q.challenge, q.s256),
                                 StoreConsent(pid, v.request, v.csrf), Approve(pid, q.user, v.request, v.csrf),
                                 StoreCode(pid, v.code)]
                                + [Exchange(pid, q.client, secret, v.code, Some(q.uri), verifier), TakeCode(pid, v.family)]
                                + [StoreAccess(pid, v.access), StoreRefresh(pid, v.refresh)]);
            && LiveAccess(s', v.access) && s'.access[v.access].grant == GrantOf(q)
            && LiveRefresh(s', v.refresh) && s'.refresh[v.refresh].grant == GrantOf(q)
            && s'.responses == s.responses + [Response(FromCode(v.code, verifier), GrantOf(q), v.family, v.access, v.refresh)]
  {
    var asking := [Authorize(pid, q.user, q.client, q.uri, q.scope, q.challenge, q.s256),
                   StoreConsent(pid, v.request, v.csrf), Approve(pid, q.user, v.request, v.csrf), StoreCode(pid, v.code)];
    var exchanging := [Exchange(pid, q.client, secret, v.code, Some(q.uri), verifier), TakeCode(pid, v.family)];
    var s4 := AskingEnds(h, s, pid, q, v);
    var s6 := ExchangeEnds(h, s4, pid, q, v, secret, verifier);
    Answered(h, s6, pid, FromCode(v.code, verifier), GrantOf(q), v.family, v.access, v.refresh);
    RunAppend(h, s, asking, exchanging);
    RunAppend(h, s, asking + exchanging, [StoreAccess(pid, v.access), StoreRefresh(pid, v.refresh)]);
  }

  lemma AskingEnds(h: Hash, s: Store, pid: nat, q: Ask, v: Values) returns (s': Store)
    requires pid !in s.flights && q.client in s.apps && AllFresh(s, v)
    requires AppMay(s.apps[q.client], Split(q.scope), q.uri, q.challenge, q.s256)
    ensures s' == Run(h, s, [Authorize(pid, q.user, q.client, q.uri, q.scope, q.challenge, q.s256),
                             StoreConsent(pid, v.request, v.csrf), Approve(pid, q.user, v.request, v.csrf),
                             StoreCode(pid, v.code)])
    ensures s'.apps == s.apps && s'.now == s.now && pid !in s'.flights && s'.responses == s.responses
    ensures s'.drawn == s.drawn + {v.request, v.csrf, v.code}
    ensures v.code in s'.codes && s'.codes[v.code] == Code(GrantOf(q), q.uri, q.challenge, s'.now + 300, false)
  {
    var a, b := Authorize(pid, q.user, q.client, q.uri, q.scope, q.challenge, q.s256), StoreConsent(pid, v.request, v.csrf);
    var c, d := Approve(pid, q.user, v.request, v.csrf), StoreCode(pid, v.code);
    var s1 := Asked(h, s, pid, q);
    var s2 := Stored(h, s1, pid, q, v);
    var s3 := ApprovedBy(h, s2, pid, q, v);
    s' := CodeGiven(h, s3, pid, q, v);
    RunTwo(h, s, a, b);
    RunTwo(h, s2, c, d);
    RunAppend(h, s, [a, b], [c, d]);
    assert [a, b] + [c, d] == [a, b, c, d];
  }

  lemma ExchangeEnds(
    h: Hash, s: Store, pid: nat, q: Ask, v: Values, secret: Option<Secret>, verifier: Option<Bytes>) returns (s': Store)
    requires pid !in s.flights && q.client in s.apps && !s.apps[q.client].revoked && v.family !in s.drawn
    requires v.code in s.codes && s.codes[v.code] == Code(GrantOf(q), q.uri, q.challenge, s.now + 300, false)
    requires Proves(s.apps[q.client], secret) && Meets(h, q.challenge, verifier)
    ensures s' == Run(h, s, [Exchange(pid, q.client, secret, v.code, Some(q.uri), verifier), TakeCode(pid, v.family)])
    ensures s'.drawn == s.drawn + {v.family} && s'.responses == s.responses
    ensures pid in s'.flights && s'.flights[pid] == Issuing(FromCode(v.code, verifier), GrantOf(q), v.family)
  {
    var s1 := Presented(h, s, pid, q, v, secret, verifier);
    s' := CodeAccepted(h, s1, pid, q, v, verifier);
    RunTwo(h, s, Exchange(pid, q.client, secret, v.code, Some(q.uri), verifier), TakeCode(pid, v.family));
  }

  // ---------------------------------------------------------------------
  // The client refreshes

  lemma RefreshAccepted(h: Hash, s: Store, pid: nat, client: Id, secret: Option<Secret>, token: Secret) returns (s': Store)
    requires pid !in s.flights && client in s.apps && Proves(s.apps[client], secret)
    requires LiveRefresh(s, token) && s.refresh[token].grant.client == client
    ensures s' == Run(h, s, [PresentRefresh(pid, client, secret, token), TakeRefresh(pid)])
    ensures s'.drawn == s.drawn && s'.responses == s.responses && token in s'.refresh && s'.refresh[token].revoked
    ensures pid in s'.flights && s'.flights[pid] == Issuing(FromRefresh(token), s.refresh[token].grant, s.refresh[token].family)
  {
    var s1 := Step(h, s, PresentRefresh(pid, client, secret, token));
    assert s1 == s.(flights := s.flights[pid := Refreshing(client, token)]);
    s' := TokenAccepted(h, s1, pid, client, token);
    RunTwo(h, s, PresentRefresh(pid, client, secret, token), TakeRefresh(pid));
  }

  lemma TokenAccepted(h: Hash, s: Store, pid: nat, client: Id, token: Secret) returns (s': Store)
    requires pid in s.flights && s.flights[pid] == Refreshing(client, token)
    requires LiveRefresh(s, token) && s.refresh[token].grant.client == client
    ensures s' == Step(h, s, TakeRefresh(pid))
    ensures s'.drawn == s.drawn && s'.responses == s.responses && token in s'.refresh && s'.refresh[token].revoked
    ensures pid in s'.flights && s'.flights[pid] == Issuing(FromRefresh(token), s.refresh[token].grant, s.refresh[token].family)
  {
    s' := Step(h, s, TakeRefresh(pid));
  }

  /** A live refresh token presented by its client is exchanged for a new pair of the same
      family and grant, and is itself spent. */
  lemma HonestRefreshSucceeds(
    h: Hash, s: Store, pid: nat, client: Id, secret: Option<Secret>, token: Secret, access: Secret, refresh: Secret)
    requires pid !in s.flights && client in s.apps && Proves(s.apps[client], secret)
    requires LiveRefresh(s, token) && s.refresh[token].grant.client == client
    requires access !in s.drawn && refresh !in s.drawn && access != refresh && token != refresh
    ensures var s' := Run(h, s, [PresentRefresh(pid, client, secret, token), TakeRefresh(pid)]
                                + [StoreAccess(pid, access), StoreRefresh(pid, refresh)]);
            && LiveAccess(s', access) && s'.access[access].grant == s.refresh[token].grant
            && LiveRefresh(s', refresh) && s'.refresh[refresh].grant == s.refresh[token].grant
            && s'.refresh[refresh].family == s.refresh[token].family
            && !LiveRefresh(s', token)
            && s'.responses == s.responses
                               + [Response(FromRefresh(token), s.refresh[token].grant, s.refresh[token].family, access, refresh)]
  {
    var s2 := RefreshAccepted(h, s, pid, client, secret, token);
    Answered(h, s2, pid, FromRefresh(token), s.refresh[token].grant, s.refresh[token].family, access, refresh);
    RunAppend(h, s, [PresentRefresh(pid, client, secret, token), TakeRefresh(pid)],
              [StoreAccess(pid, access), StoreRefresh(pid, refresh)]);
  }
}
