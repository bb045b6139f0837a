/** The authorization server as a state machine over its storage operations. Every
    request handler is split into the steps that touch storage, and the steps of
    different requests interleave freely. One-time values are stored as digests in
    the program; the digest is injective, so the model stores the values themselves. */
module OAuth {
  import opened Entities
  import opened Scopes
  import opened Compare

  type Secret = string
  type Hash = Bytes -> Bytes

  const CONSENT_TTL := 300
  const CODE_TTL := 300
  const ACCESS_TTL := 600
  const REFRESH_TTL := 2592000

  /** Who lets which client do what. */
  datatype Grant = Grant(client: Id, user: Id, scope: string)

  datatype App = App(
    owner: Id, redirects: seq<string>, allowed: seq<string>, public: bool, secret: Option<Secret>, revoked: bool)

  datatype Consent = Consent(
    grant: Grant, csrf: Secret, redirect: string, challenge: Option<Bytes>, expires: int, used: bool)

  datatype Code = Code(grant: Grant, redirect: string, challenge: Option<Bytes>, expires: int, used: bool)

  datatype Access = Access(grant: Grant, expires: int, revoked: bool)

  datatype Refresh = Refresh(family: Secret, grant: Grant, expires: int, revoked: bool)

  /** What an issued pair of tokens was given for. */
  datatype Source = FromCode(code: Secret, verifier: Option<Bytes>) | FromRefresh(token: Secret)

  datatype Response = Response(source: Source, grant: Grant, family: Secret, access: Secret, refresh: Secret)

  /** Where a request stands between two storage operations. */
  datatype Flight =
    | Authorizing(grant: Grant, redirect: string, challenge: Option<Bytes>)
    | Approved(request: Secret)
    | Exchanging(client: Id, code: Secret, uri: Option<string>, verifier: Option<Bytes>)
    | Refreshing(client: Id, token: Secret)
    | Reused(client: Id, token: Secret)
    | Killing(family: Secret)
    | Issuing(source: Source, issue: Grant, line: Secret)
    | Issued(source: Source, issue: Grant, line: Secret, access: Secret)
    | RevokingAccess(client: Id)
    | RevokingRefresh(client: Id)
    | DroppingAccess(token: Secret)
    | DroppingRefresh(token: Secret)

  /** The five collections, the requests in flight, every value ever drawn, and four
      history records: the consent behind a code, the code behind a family, the
      family of an access token, and all token responses. */
  datatype Store = Store(
    now: int,
    apps: map<Id, App>, consents: map<Secret, Consent>, codes: map<Secret, Code>,
    access: map<Secret, Access>, refresh: map<Secret, Refresh>,
    flights: map<nat, Flight>, drawn: set<Secret>,
    consentOf: map<Secret, Secret>, codeOf: map<Secret, Secret>, familyOf: map<Secret, Secret>,
    responses: seq<Response>)

  /** The storage operations. Where an operation has several outcomes, each outcome is
      an action of its own. `value` and `csrf` are freshly drawn random values. */
  datatype Action =
    | Tick(time: int)
    | CreateApp(value: Secret, csrf: Secret, owner: Id, redirects: seq<string>, allowed: seq<string>, public: bool)
    | RotateSecret(client: Id, owner: Id, value: Secret)
    | RevokeApp(pid: nat, client: Id, owner: Id)
    | RevokeAppAccess(pid: nat)
    | RevokeAppRefresh(pid: nat)
    | Authorize(pid: nat, user: Id, client: Id, uri: string, scope: string, challenge: Option<Bytes>, s256: Option<bool>)
    | StoreConsent(pid: nat, value: Secret, csrf: Secret)
    | Approve(pid: nat, user: Id, request: Secret, csrf: Secret)
    | Deny(user: Id, request: Secret, csrf: Secret)
    | StoreCode(pid: nat, value: Secret)
    | Exchange(pid: nat, client: Id, secret: Option<Secret>, code: Secret, redirect: Option<string>, verifier: Option<Bytes>)
    | TakeCode(pid: nat, value: Secret)
    | BurnCode(pid: nat)
    | PresentRefresh(pid: nat, client: Id, secret: Option<Secret>, token: Secret)
    | TakeRefresh(pid: nat)
    | MissRefresh(pid: nat)
    | FindReused(pid: nat)
    | KillFamily(pid: nat)
    | StoreAccess(pid: nat, value: Secret)
    | StoreRefresh(pid: nat, value: Secret)
    | RevokeToken(pid: nat, token: Secret, clientId: Option<Id>, secret: Option<Secret>)
    | DropAccess(pid: nat)
    | DropRefresh(pid: nat)
    | End(pid: nat)

  // ---------------------------------------------------------------------
  // Checks

  /** A confidential client proves itself with its current secret. */
  predicate Authenticates(app: App, secret: Option<Secret>) {
    app.public || (secret.Some? && app.secret.Some? && secret.value == app.secret.value)
  }

  /** The checks of the authorization endpoint; `s256` says whether a challenge
      method was given and whether it is S256. */
  predicate MayAuthorize(app: App, uri: string, scope: string, challenge: Option<Bytes>, s256: Option<bool>) {
    && !app.revoked
    && uri in app.redirects
    && ValidateScopes(scope, app.allowed).Some?
    && (app.public ==> challenge.Some? && s256 == Some(true))
    && s256 != Some(false)
    && (challenge.Some? ==> |challenge.value| <= 256)
  }

  predicate MayExchange(h: Hash, code: Code, redirect: Option<string>, verifier: Option<Bytes>) {
    && redirect == Some(code.redirect)
    && (code.challenge.Some? ==> verifier.Some? && h(verifier.value) == code.challenge.value)
  }

  // ---------------------------------------------------------------------
  // When an operation is possible

  predicate Idle(s: Store, pid: nat) {
    pid !in s.flights
  }

  predicate Fresh(s: Store, value: Secret) {
    value !in s.drawn
  }

  /** An open consent request of this user, with its form token. */
  predicate OpenConsent(s: Store, user: Id, request: Secret, csrf: Secret) {
    && request in s.consents
    && s.consents[request].grant.user == user && s.consents[request].csrf == csrf
    && !s.consents[request].used && s.consents[request].expires > s.now
  }

  predicate OpenCode(s: Store, client: Id, code: Secret) {
    && code in s.codes && s.codes[code].grant.client == client
    && !s.codes[code].used && s.codes[code].expires > s.now
  }

  predicate OpenRefresh(s: Store, client: Id, token: Secret) {
    && token in s.refresh && s.refresh[token].grant.client == client
    && !s.refresh[token].revoked && s.refresh[token].expires > s.now
  }

  predicate Enabled(h: Hash, s: Store, a: Action) {
    match a
    case Tick(time) => time >= s.now
    case CreateApp(value, csrf, owner, redirects, allowed, public) =>
      Fresh(s, value) && Fresh(s, csrf) && value != csrf && redirects != [] && allowed != []
      && forall w <- allowed :: w in SUPPORTED
    case RotateSecret(client, owner, value) =>
      client in s.apps && s.apps[client].owner == owner && !s.apps[client].public && !s.apps[client].revoked
      && Fresh(s, value)
    case RevokeApp(pid, client, owner) => Idle(s, pid) && client in s.apps && s.apps[client].owner == owner
    case RevokeAppAccess(pid) => pid in s.flights && s.flights[pid].RevokingAccess?
    case RevokeAppRefresh(pid) => pid in s.flights && s.flights[pid].RevokingRefresh?
    case Authorize(pid, user, client, uri, scope, challenge, s256) =>
      Idle(s, pid) && client in s.apps && MayAuthorize(s.apps[client], uri, scope, challenge, s256)
    case StoreConsent(pid, value, csrf) =>
      pid in s.flights && s.flights[pid].Authorizing? && Fresh(s, value) && Fresh(s, csrf) && value != csrf
    case Approve(pid, user, request, csrf) => Idle(s, pid) && OpenConsent(s, user, request, csrf)
    case Deny(user, request, csrf) => OpenConsent(s, user, request, csrf)
    case StoreCode(pid, value) =>
      pid in s.flights && s.flights[pid].Approved? && s.flights[pid].request in s.consents && Fresh(s, value)
    case Exchange(pid, client, secret, code, redirect, verifier) =>
      Idle(s, pid) && client in s.apps && !s.apps[client].revoked && Authenticates(s.apps[client], secret)
    case TakeCode(pid, value) =>
      && pid in s.flights && s.flights[pid].Exchanging? && Fresh(s, value)
      && OpenCode(s, s.flights[pid].client, s.flights[pid].code)
      && MayExchange(h, s.codes[s.flights[pid].code], s.flights[pid].uri, s.flights[pid].verifier)
    case BurnCode(pid) =>
      && pid in s.flights && s.flights[pid].Exchanging?
      && OpenCode(s, s.flights[pid].client, s.flights[pid].code)
      && !MayExchange(h, s.codes[s.flights[pid].code], s.flights[pid].uri, s.flights[pid].verifier)
    case PresentRefresh(pid, client, secret, token) =>
      Idle(s, pid) && client in s.apps && Authenticates(s.apps[client], secret)
    case TakeRefresh(pid) =>
      pid in s.flights && s.flights[pid].Refreshing? && OpenRefresh(s, s.flights[pid].client, s.flights[pid].token)
    case MissRefresh(pid) =>
      pid in s.flights && s.flights[pid].Refreshing? && !OpenRefresh(s, s.flights[pid].client, s.flights[pid].token)
    case FindReused(pid) =>
      && pid in s.flights && s.flights[pid].Reused? && s.flights[pid].token in s.refresh
      && s.refresh[s.flights[pid].token].grant.client == s.flights[pid].client
    case KillFamily(pid) => pid in s.flights && s.flights[pid].Killing?
    case StoreAccess(pid, value) => pid in s.flights && s.flights[pid].Issuing? && Fresh(s, value)
    case StoreRefresh(pid, value) => pid in s.flights && s.flights[pid].Issued? && Fresh(s, value)
    case RevokeToken(pid, token, clientId, secret) =>
      Idle(s, pid) && (clientId.Some? ==> clientId.value in s.apps && Authenticates(s.apps[clientId.value], secret))
    case DropAccess(pid) => pid in s.flights && s.flights[pid].DroppingAccess?
    case DropRefresh(pid) => pid in s.flights && s.flights[pid].DroppingRefresh?
    case End(pid) => true
  }

  // ---------------------------------------------------------------------
  // What an operation does

  function Without(flights: map<nat, Flight>, pid: nat): map<nat, Flight> {
    map p <- flights | p != pid :: flights[p]
  }

  function RevokeClientAccess(access: map<Secret, Access>, client: Id): map<Secret, Access> {
    map t <- access :: if access[t].grant.client == client then access[t].(revoked := true) else access[t]
  }

  function RevokeClientRefresh(refresh: map<Secret, Refresh>, client: Id): map<Secret, Refresh> {
    map t <- refresh :: if refresh[t].grant.client == client then refresh[t].(revoked := true) else refresh[t]
  }

  function RevokeFamily(refresh: map<Secret, Refresh>, family: Secret): map<Secret, Refresh> {
    map t <- refresh :: if refresh[t].family == family then refresh[t].(revoked := true) else refresh[t]
  }

  function RevokeOneAccess(access: map<Secret, Access>, token: Secret): map<Secret, Access> {
    map t <- access :: if t == token then access[t].(revoked := true) else access[t]
  }

  function RevokeOneRefresh(refresh: map<Secret, Refresh>, token: Secret): map<Secret, Refresh> {
    map t <- refresh :: if t == token then refresh[t].(revoked := true) else refresh[t]
  }

  function UseConsent(consents: map<Secret, Consent>, request: Secret): map<Secret, Consent>
    requires request in consents
  {
    consents[request := consents[request].(used := true)]
  }

  function UseCode(codes: map<Secret, Code>, code: Secret): map<Secret, Code>
    requires code in codes
  {
    codes[code := codes[code].(used := true)]
  }

  /** Taking a code is one atomic find-and-update; the redirect and verifier checks
      come after it, so a request that fails them burns the code. Refreshing looks the
      application up but does not read its revoked flag. */
  function Do(h: Hash, s: Store, a: Action): Store
    requires Enabled(h, s, a)
  {
    match a
    case Tick(time) => s.(now := time)
    case CreateApp(value, csrf, owner, redirects, allowed, public) =>
      s.(apps := s.apps[value := App(owner, redirects, allowed, public, if public then None else Some(csrf), false)],
         drawn := s.drawn + {value, csrf})
    case RotateSecret(client, owner, value) =>
      s.(apps := s.apps[client := s.apps[client].(secret := Some(value))], drawn := s.drawn + {value})
    case RevokeApp(pid, client, owner) =>
      s.(apps := s.apps[client := s.apps[client].(revoked := true)], flights := s.flights[pid := RevokingAccess(client)])
    case RevokeAppAccess(pid) =>
      s.(access := RevokeClientAccess(s.access, s.flights[pid].client),
         flights := s.flights[pid := RevokingRefresh(s.flights[pid].client)])
    case RevokeAppRefresh(pid) =>
      s.(refresh := RevokeClientRefresh(s.refresh, s.flights[pid].client), flights := Without(s.flights, pid))
    case Authorize(pid, user, client, uri, scope, challenge, s256) =>
      s.(flights := s.flights[pid := Authorizing(Grant(client, user, Join(Split(scope))), uri, challenge)])
    case StoreConsent(pid, value, csrf) =>
      var f := s.flights[pid];
      s.(consents := s.consents[value := Consent(f.grant, csrf, f.redirect, f.challenge, s.now + CONSENT_TTL, false)],
         flights := Without(s.flights, pid), drawn := s.drawn + {value, csrf})
    case Approve(pid, user, request, csrf) =>
      s.(consents := UseConsent(s.consents, request), flights := s.flights[pid := Approved(request)])
    case Deny(user, request, csrf) => s.(consents := UseConsent(s.consents, request))
    case StoreCode(pid, value) =>
      var c := s.consents[s.flights[pid].request];
      s.(codes := s.codes[value := Code(c.grant, c.redirect, c.challenge, s.now + CODE_TTL, false)],
         consentOf := s.consentOf[value := s.flights[pid].request],
         flights := Without(s.flights, pid), drawn := s.drawn + {value})
    case Exchange(pid, client, secret, code, redirect, verifier) =>
      s.(flights := s.flights[pid := Exchanging(client, code, redirect, verifier)])
    case TakeCode(pid, value) =>
      var f := s.flights[pid];
      s.(codes := UseCode(s.codes, f.code), codeOf := s.codeOf[value := f.code],
         flights := s.flights[pid := Issuing(FromCode(f.code, f.verifier), s.codes[f.code].grant, value)],
         drawn := s.drawn + {value})
    case BurnCode(pid) =>
      s.(codes := UseCode(s.codes, s.flights[pid].code), flights := Without(s.flights, pid))
    case PresentRefresh(pid, client, secret, token) => s.(flights := s.flights[pid := Refreshing(client, token)])
    case TakeRefresh(pid) =>
      var token := s.flights[pid].token;
      s.(refresh := RevokeOneRefresh(s.refresh, token),
         flights := s.flights[pid := Issuing(FromRefresh(token), s.refresh[token].grant, s.refresh[token].family)])
    case MissRefresh(pid) => s.(flights := s.flights[pid := Reused(s.flights[pid].client, s.flights[pid].token)])
    case FindReused(pid) => s.(flights := s.flights[pid := Killing(s.refresh[s.flights[pid].token].family)])
    case KillFamily(pid) =>
      s.(refresh := RevokeFamily(s.refresh, s.flights[pid].family), flights := Without(s.flights, pid))
    case StoreAccess(pid, value) =>
      var f := s.flights[pid];
      s.(access := s.access[value := Access(f.issue, s.now + ACCESS_TTL, false)],
         familyOf := s.familyOf[value := f.line],
         flights := s.flights[pid := Issued(f.source, f.issue, f.line, value)], drawn := s.drawn + {value})
    case StoreRefresh(pid, value) =>
      var f := s.flights[pid];
      s.(refresh := s.refresh[value := Refresh(f.line, f.issue, s.now + REFRESH_TTL, false)],
         responses := s.responses + [Response(f.source, f.issue, f.line, f.access, value)],
         flights := Without(s.flights, pid), drawn := s.drawn + {value})
    case RevokeToken(pid, token, clientId, secret) => s.(flights := s.flights[pid := DroppingAccess(token)])
    case DropAccess(pid) =>
      s.(access := RevokeOneAccess(s.access, s.flights[pid].token),
         flights := s.flights[pid := DroppingRefresh(s.flights[pid].token)])
    case DropRefresh(pid) =>
      s.(refresh := RevokeOneRefresh(s.refresh, s.flights[pid].token), flights := Without(s.flights, pid))
    case End(pid) => s.(flights := Without(s.flights, pid))
  }

  /** One step; an operation that is not possible changes nothing. `End` ends a request
      at any point, as an error answer or a storage failure does. */
  function Step(h: Hash, s: Store, a: Action): Store {
    if Enabled(h, s, a) then Do(h, s, a) else s
  }

  /** Any interleaving. */
  function Run(h: Hash, s: Store, actions: seq<Action>): Store
    decreases actions
  {
    if actions == [] then s else Run(h, Step(h, s, actions[0]), actions[1..])
  }

  const EMPTY := Store(0, map[], map[], map[], map[], map[], map[], {}, map[], map[], map[], [])

  predicate LiveAccess(s: Store, t: Secret) {
    t in s.access && !s.access[t].revoked && s.access[t].expires > s.now
  }

  predicate LiveRefresh(s: Store, t: Secret) {
    t in s.refresh && !s.refresh[t].revoked && s.refresh[t].expires > s.now
  }

  /** A request between taking a code or a refresh token and storing the new one. */
  predicate Rotating(f: Flight) {
    f.Issuing? || f.Issued?
  }
}
