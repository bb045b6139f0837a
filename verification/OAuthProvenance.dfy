/** Where tokens come from: every token, through any number of refreshes, traces to one
    consent with the same user, client and scope that was used, and not by a denial. */
module OAuthProvenance {
  import opened Entities
  import opened Scopes
  import opened Compare
  import opened OAuth
  import opened OAuthFamilies

  // ---------------------------------------------------------------------
  // Consents are within what the application may ask for

  predicate WithinAllowed(app: App, scope: string) {
    Split(scope) != [] && forall w <- Split(scope) :: w in app.allowed
  }

  predicate Permitted(s: Store, g: Grant, challenge: Option<Bytes>) {
    && g.client in s.apps
    && WithinAllowed(s.apps[g.client], g.scope)
    && (s.apps[g.client].public ==> challenge.Some?)
  }

  ghost predicate ConsentsPermitted(s: Store) {
    && s.apps.Keys <= s.drawn
    && (forall r <- s.consents :: r in s.drawn && Permitted(s, s.consents[r].grant, s.consents[r].challenge))
    && (forall p <- s.flights :: s.flights[p].Authorizing? ==> Permitted(s, s.flights[p].grant, s.flights[p].challenge))
  }

  /** An application keeps its allowed scopes and its kind. */
  lemma PermittedKept(h: Hash, s: Store, a: Action, g: Grant, challenge: Option<Bytes>)
    requires Enabled(h, s, a) && s.apps.Keys <= s.drawn && Permitted(s, g, challenge)
    ensures Permitted(Do(h, s, a), g, challenge)
  {
    var s' := Do(h, s, a);
    assert g.client in s'.apps && s'.apps[g.client].allowed == s.apps[g.client].allowed
           && s'.apps[g.client].public == s.apps[g.client].public;
  }

  lemma AuthorizePermitted(h: Hash, s: Store, a: Action)
    requires Enabled(h, s, a) && a.Authorize?
    ensures Permitted(s, Grant(a.client, a.user, Join(Split(a.scope))), a.challenge)
  {
    SplitJoin(Split(a.scope));
  }

  lemma ConsentsPermittedConsent(h: Hash, s: Store, a: Action, r: Secret)
    requires Enabled(h, s, a) && ConsentsPermitted(s) && r in Do(h, s, a).consents
    ensures r in Do(h, s, a).drawn
    ensures Permitted(s, Do(h, s, a).consents[r].grant, Do(h, s, a).consents[r].challenge)
  {
  }

  lemma ConsentsPermittedFlight(h: Hash, s: Store, a: Action, p: nat)
    requires Enabled(h, s, a) && ConsentsPermitted(s) && p in Do(h, s, a).flights && Do(h, s, a).flights[p].Authorizing?
    ensures Permitted(s, Do(h, s, a).flights[p].grant, Do(h, s, a).flights[p].challenge)
  {
    if a.Authorize? {
      AuthorizePermitted(h, s, a);
    }
  }

  lemma ConsentsPermittedStep(h: Hash, s: Store, a: Action)
    requires ConsentsPermitted(s)
    ensures ConsentsPermitted(Step(h, s, a))
  {
    if Enabled(h, s, a) {
      var s' := Do(h, s, a);
      forall r | r in s'.consents
        ensures r in s'.drawn && Permitted(s', s'.consents[r].grant, s'.consents[r].challenge)
      {
        ConsentsPermittedConsent(h, s, a, r);
        PermittedKept(h, s, a, s'.consents[r].grant, s'.consents[r].challenge);
      }
      forall p | p in s'.flights && s'.flights[p].Authorizing?
        ensures Permitted(s', s'.flights[p].grant, s'.flights[p].challenge)
      {
        ConsentsPermittedFlight(h, s, a, p);
        PermittedKept(h, s, a, s'.flights[p].grant, s'.flights[p].challenge);
      }
    }
  }

  // ---------------------------------------------------------------------
  // Codes come from consents, one each

  /** Code `k` was given for consent `r`. */
  predicate CodeFrom(s: Store, k: Secret, r: Secret) {
    && k in s.codes && r in s.consents && s.consents[r].used
    && s.codes[k].grant == s.consents[r].grant
    && s.codes[k].redirect == s.consents[r].redirect
    && s.codes[k].challenge == s.consents[r].challenge
  }

  /** Every code has its own used consent. */
  ghost predicate CodesFromConsents(s: Store) {
    && (forall r <- s.consents :: r in s.drawn)
    && (forall k <- s.codes :: k in s.drawn && k in s.consentOf)
    && (forall k <- s.consentOf :: CodeFrom(s, k, s.consentOf[k]))
    && (forall k, l :: k in s.consentOf && l in s.consentOf && s.consentOf[k] == s.consentOf[l] ==> k == l)
  }

  predicate Approval(s: Store, p: nat) {
    p in s.flights && s.flights[p].Approved?
  }

  /** An approved request without a code yet is the only one for its consent. */
  ghost predicate ApprovalsOpen(s: Store) {
    && (forall p :: Approval(s, p) ==> s.flights[p].request in s.consents && s.consents[s.flights[p].request].used)
    && (forall p, k :: Approval(s, p) && k in s.consentOf ==> s.consentOf[k] != s.flights[p].request)
    && (forall p, q :: Approval(s, p) && Approval(s, q) && s.flights[p].request == s.flights[q].request ==> p == q)
  }

  ghost predicate CodesTraced(s: Store) {
    CodesFromConsents(s) && ApprovalsOpen(s)
  }

  predicate SameConsent(c: Consent, d: Consent) {
    d == c || d == c.(used := true)
  }

  predicate SameCode(c: Code, d: Code) {
    d == c || d == c.(used := true)
  }

  /** Consents and codes are never altered but for being used. */
  lemma ConsentKept(h: Hash, s: Store, a: Action, x: Secret)
    requires Enabled(h, s, a) && x in s.consents && x in s.drawn
    ensures x in Do(h, s, a).consents && SameConsent(s.consents[x], Do(h, s, a).consents[x])
  {
  }

  lemma CodeKept(h: Hash, s: Store, a: Action, x: Secret)
    requires Enabled(h, s, a) && x in s.codes && x in s.drawn
    ensures x in Do(h, s, a).codes && SameCode(s.codes[x], Do(h, s, a).codes[x])
  {
  }

  lemma DrawnKept(h: Hash, s: Store, a: Action, x: Secret)
    requires Enabled(h, s, a) && x in s.drawn
    ensures x in Do(h, s, a).drawn
  {
  }

  lemma ConsentOfKept(h: Hash, s: Store, a: Action, x: Secret)
    requires Enabled(h, s, a) && x in s.consentOf && x in s.drawn
    ensures x in Do(h, s, a).drawn && x in Do(h, s, a).consentOf && Do(h, s, a).consentOf[x] == s.consentOf[x]
  {
  }

  lemma NewConsent(h: Hash, s: Store, a: Action, x: Secret)
    requires Enabled(h, s, a) && (x in s.consents ==> x in s.drawn) && x in Do(h, s, a).consents
    ensures x in Do(h, s, a).drawn
  {
  }

  lemma NewCode(h: Hash, s: Store, a: Action, x: Secret)
    requires Enabled(h, s, a) && x in Do(h, s, a).codes && x !in s.codes
    ensures a.StoreCode? && x == a.value && x in Do(h, s, a).drawn && x in Do(h, s, a).consentOf
  {
  }

  lemma NewConsentOf(h: Hash, s: Store, a: Action, x: Secret)
    requires Enabled(h, s, a) && x in Do(h, s, a).consentOf && x !in s.consentOf
    ensures a.StoreCode? && x == a.value && Do(h, s, a).consentOf[x] == s.flights[a.pid].request
  {
  }

  lemma NewApprovals(h: Hash, s: Store, a: Action, p: nat)
    requires Enabled(h, s, a) && CodesTraced(s)
    requires Approval(Do(h, s, a), p)
    ensures var s' := Do(h, s, a);
            var r := s'.flights[p].request;
            && r in s'.consents && s'.consents[r].used
            && (a.Approve? && p == a.pid ==> r == a.request && !s.consents[r].used)
            && (!(a.Approve? && p == a.pid) ==> p in s.flights && s.flights[p] == s'.flights[p])
            && (a.StoreCode? ==> p != a.pid)
  {
  }

  lemma CodeTraced(h: Hash, s: Store, a: Action, k: Secret)
    requires Enabled(h, s, a) && CodesTraced(s) && k in Do(h, s, a).consentOf
    ensures CodeFrom(Do(h, s, a), k, Do(h, s, a).consentOf[k])
  {
    if k in s.consentOf {
      assert CodeFrom(s, k, s.consentOf[k]);
      ConsentOfKept(h, s, a, k);
      CodeKept(h, s, a, k);
      ConsentKept(h, s, a, s.consentOf[k]);
    } else {
      NewConsentOf(h, s, a, k);
      assert Approval(s, a.pid);
      ConsentKept(h, s, a, s.flights[a.pid].request);
    }
  }

  /** A code known before keeps its consent; a new one is for an approved request. */
  lemma ConsentOfBefore(h: Hash, s: Store, a: Action, k: Secret)
    requires Enabled(h, s, a) && CodesTraced(s) && k in Do(h, s, a).consentOf
    ensures k in s.consentOf ==> Do(h, s, a).consentOf[k] == s.consentOf[k]
    ensures k !in s.consentOf ==>
              a.StoreCode? && k == a.value && Approval(s, a.pid) && Do(h, s, a).consentOf[k] == s.flights[a.pid].request
  {
    if k in s.consentOf {
      assert CodeFrom(s, k, s.consentOf[k]);
      ConsentOfKept(h, s, a, k);
    } else {
      NewConsentOf(h, s, a, k);
    }
  }

  lemma CodesInject(h: Hash, s: Store, a: Action, k: Secret, l: Secret)
    requires Enabled(h, s, a) && CodesTraced(s)
    requires k in Do(h, s, a).consentOf && l in Do(h, s, a).consentOf && Do(h, s, a).consentOf[k] == Do(h, s, a).consentOf[l]
    ensures k == l
  {
    ConsentOfBefore(h, s, a, k);
    ConsentOfBefore(h, s, a, l);
  }

  lemma ApprovalUnused(h: Hash, s: Store, a: Action, p: nat, k: Secret)
    requires Enabled(h, s, a) && CodesTraced(s)
    requires Approval(Do(h, s, a), p) && k in Do(h, s, a).consentOf
    ensures Do(h, s, a).consentOf[k] != Do(h, s, a).flights[p].request
  {
    NewApprovals(h, s, a, p);
    ConsentOfBefore(h, s, a, k);
    if k in s.consentOf {
      assert CodeFrom(s, k, s.consentOf[k]);
    }
  }

  lemma ApprovalsDiffer(h: Hash, s: Store, a: Action, p: nat, q: nat)
    requires Enabled(h, s, a) && CodesTraced(s)
    requires Approval(Do(h, s, a), p) && Approval(Do(h, s, a), q)
    requires Do(h, s, a).flights[p].request == Do(h, s, a).flights[q].request
    ensures p == q
  {
    NewApprovals(h, s, a, p);
    NewApprovals(h, s, a, q);
  }

  lemma CodeDrawn(h: Hash, s: Store, a: Action, x: Secret)
    requires Enabled(h, s, a) && CodesFromConsents(s) && x in Do(h, s, a).codes
    ensures x in Do(h, s, a).drawn && x in Do(h, s, a).consentOf
  {
    if x in s.codes {
      ConsentOfKept(h, s, a, x);
    } else {
      NewCode(h, s, a, x);
    }
  }

  lemma CodesFromConsentsStep(h: Hash, s: Store, a: Action)
    requires CodesTraced(s) && Enabled(h, s, a)
    ensures CodesFromConsents(Do(h, s, a))
  {
    var s' := Do(h, s, a);
    forall x | x in s'.consents
      ensures x in s'.drawn
    {
      NewConsent(h, s, a, x);
    }
    forall x | x in s'.codes
      ensures x in s'.drawn && x in s'.consentOf
    {
      CodeDrawn(h, s, a, x);
    }
    forall k | k in s'.consentOf
      ensures CodeFrom(s', k, s'.consentOf[k])
    {
      CodeTraced(h, s, a, k);
    }
    forall k, l | k in s'.consentOf && l in s'.consentOf && s'.consentOf[k] == s'.consentOf[l]
      ensures k == l
    {
      CodesInject(h, s, a, k, l);
    }
  }

  lemma ApprovalsOpenStep(h: Hash, s: Store, a: Action)
    requires CodesTraced(s) && Enabled(h, s, a)
    ensures ApprovalsOpen(Do(h, s, a))
  {
    var s' := Do(h, s, a);
    forall p | Approval(s', p)
      ensures s'.flights[p].request in s'.consents && s'.consents[s'.flights[p].request].used
    {
      NewApprovals(h, s, a, p);
    }
    forall p, k | Approval(s', p) && k in s'.consentOf
      ensures s'.consentOf[k] != s'.flights[p].request
    {
      ApprovalUnused(h, s, a, p, k);
    }
    forall p, q | Approval(s', p) && Approval(s', q) && s'.flights[p].request == s'.flights[q].request
      ensures p == q
    {
      ApprovalsDiffer(h, s, a, p, q);
    }
  }

  lemma CodesTracedStep(h: Hash, s: Store, a: Action)
    requires CodesTraced(s)
    ensures CodesTraced(Step(h, s, a))
  {
    if Enabled(h, s, a) {
      CodesFromConsentsStep(h, s, a);
      ApprovalsOpenStep(h, s, a);
    }
  }

  // ---------------------------------------------------------------------
  // Families come from codes, one each, and tokens from families

  /** Family `f` was opened with a code that carries the grant `g`. */
  predicate FamilyFrom(s: Store, f: Secret, g: Grant) {
    && f in s.codeOf && s.codeOf[f] in s.codes && s.codes[s.codeOf[f]].used
    && s.codes[s.codeOf[f]].grant == g
  }

  ghost predicate FamiliesTraced(s: Store) {
    && (forall f <- s.codeOf :: f in s.drawn && s.codeOf[f] in s.codes && s.codes[s.codeOf[f]].used)
    && (forall f, g :: f in s.codeOf && g in s.codeOf && s.codeOf[f] == s.codeOf[g] ==> f == g)
  }

  ghost predicate TokensTraced(s: Store) {
    && (forall p <- s.flights :: Rotating(s.flights[p]) ==> FamilyFrom(s, s.flights[p].line, s.flights[p].issue))
    && (forall t <- s.refresh :: FamilyFrom(s, s.refresh[t].family, s.refresh[t].grant))
    && (forall t <- s.access :: t in s.drawn && t in s.familyOf && FamilyFrom(s, s.familyOf[t], s.access[t].grant))
  }

  lemma FamilyKept(h: Hash, s: Store, a: Action, f: Secret, g: Grant)
    requires Enabled(h, s, a) && CodesFromConsents(s) && FamiliesTraced(s) && FamilyFrom(s, f, g)
    ensures FamilyFrom(Do(h, s, a), f, g)
  {
    CodeOfKept(h, s, a, f);
    CodeKept(h, s, a, s.codeOf[f]);
  }

  lemma CodeOfKept(h: Hash, s: Store, a: Action, f: Secret)
    requires Enabled(h, s, a) && f in s.codeOf && f in s.drawn
    ensures f in Do(h, s, a).drawn && f in Do(h, s, a).codeOf && Do(h, s, a).codeOf[f] == s.codeOf[f]
  {
  }

  lemma NewFamily(h: Hash, s: Store, a: Action, f: Secret)
    requires Enabled(h, s, a) && f in Do(h, s, a).codeOf && f !in s.codeOf
    ensures a.TakeCode? && f == a.value && f in Do(h, s, a).drawn
    ensures var k := Do(h, s, a).codeOf[f];
            k in s.codes && !s.codes[k].used && k in Do(h, s, a).codes && Do(h, s, a).codes[k].used
  {
  }

  /** A family known before keeps its code; a new one takes an unused code. */
  lemma FamilyBefore(h: Hash, s: Store, a: Action, f: Secret)
    requires Enabled(h, s, a) && CodesFromConsents(s) && FamiliesTraced(s) && f in Do(h, s, a).codeOf
    ensures var s' := Do(h, s, a);
            && f in s'.drawn && s'.codeOf[f] in s'.codes && s'.codes[s'.codeOf[f]].used
            && (f in s.codeOf ==> s'.codeOf[f] == s.codeOf[f])
            && (f !in s.codeOf ==> a.TakeCode? && f == a.value && s'.codeOf[f] in s.codes && !s.codes[s'.codeOf[f]].used)
  {
    if f in s.codeOf {
      CodeOfKept(h, s, a, f);
      CodeKept(h, s, a, s.codeOf[f]);
    } else {
      NewFamily(h, s, a, f);
    }
  }

  lemma FamiliesInject(h: Hash, s: Store, a: Action, f: Secret, g: Secret)
    requires Enabled(h, s, a) && CodesFromConsents(s) && FamiliesTraced(s)
    requires f in Do(h, s, a).codeOf && g in Do(h, s, a).codeOf && Do(h, s, a).codeOf[f] == Do(h, s, a).codeOf[g]
    ensures f == g
  {
    FamilyBefore(h, s, a, f);
    FamilyBefore(h, s, a, g);
  }

  lemma FamiliesTracedStep(h: Hash, s: Store, a: Action)
    requires CodesFromConsents(s) && FamiliesTraced(s) && Enabled(h, s, a)
    ensures FamiliesTraced(Do(h, s, a))
  {
    var s' := Do(h, s, a);
    forall f | f in s'.codeOf
      ensures f in s'.drawn && s'.codeOf[f] in s'.codes && s'.codes[s'.codeOf[f]].used
    {
      FamilyBefore(h, s, a, f);
    }
    forall f, g | f in s'.codeOf && g in s'.codeOf && s'.codeOf[f] == s'.codeOf[g]
      ensures f == g
    {
      FamiliesInject(h, s, a, f, g);
    }
  }

  lemma PlainFlightTraced(h: Hash, s: Store, a: Action, p: nat)
    requires Enabled(h, s, a) && Plain(a) && CodesFromConsents(s) && FamiliesTraced(s) && TokensTraced(s)
    requires p in Do(h, s, a).flights && Rotating(Do(h, s, a).flights[p])
    ensures FamilyFrom(Do(h, s, a), Do(h, s, a).flights[p].line, Do(h, s, a).flights[p].issue)
  {
    PlainFlights(h, s, a, p);
    FamilyKept(h, s, a, s.flights[p].line, s.flights[p].issue);
  }

  lemma OtherFlight(h: Hash, s: Store, a: Action, p: nat)
    requires Enabled(h, s, a) && !Plain(a) && (a.StoreRefresh? || p != a.pid)
    requires p in Do(h, s, a).flights && Rotating(Do(h, s, a).flights[p])
    ensures p in s.flights && s.flights[p] == Do(h, s, a).flights[p]
  {
  }

  lemma TakenRefreshTraced(h: Hash, s: Store, a: Action)
    requires Enabled(h, s, a) && a.TakeRefresh? && CodesFromConsents(s) && FamiliesTraced(s) && TokensTraced(s)
    ensures var f := Do(h, s, a).flights[a.pid];
            FamilyFrom(Do(h, s, a), f.line, f.issue)
  {
    var token := s.flights[a.pid].token;
    FamilyKept(h, s, a, s.refresh[token].family, s.refresh[token].grant);
  }

  lemma TakenCodeTraced(h: Hash, s: Store, a: Action)
    requires Enabled(h, s, a) && a.TakeCode?
    ensures var f := Do(h, s, a).flights[a.pid];
            f.Issuing? && FamilyFrom(Do(h, s, a), f.line, f.issue)
  {
  }

  lemma FlightTraced(h: Hash, s: Store, a: Action, p: nat)
    requires Enabled(h, s, a) && !Plain(a) && CodesFromConsents(s) && FamiliesTraced(s) && TokensTraced(s)
    requires p in Do(h, s, a).flights && Rotating(Do(h, s, a).flights[p])
    ensures FamilyFrom(Do(h, s, a), Do(h, s, a).flights[p].line, Do(h, s, a).flights[p].issue)
  {
    if a.StoreRefresh? || p != a.pid {
      OtherFlight(h, s, a, p);
      FamilyKept(h, s, a, s.flights[p].line, s.flights[p].issue);
    } else if a.TakeRefresh? {
      TakenRefreshTraced(h, s, a);
    } else {
      TakenCodeTraced(h, s, a);
    }
  }

  lemma RefreshTraced(h: Hash, s: Store, a: Action, t: Secret)
    requires Enabled(h, s, a) && CodesFromConsents(s) && FamiliesTraced(s) && TokensTraced(s)
    requires t in Do(h, s, a).refresh
    ensures FamilyFrom(Do(h, s, a), Do(h, s, a).refresh[t].family, Do(h, s, a).refresh[t].grant)
  {
    if a.StoreRefresh? && t == a.value {
      FamilyKept(h, s, a, s.flights[a.pid].line, s.flights[a.pid].issue);
    } else {
      OldToken(h, s, a, t);
      FamilyKept(h, s, a, s.refresh[t].family, s.refresh[t].grant);
    }
  }

  lemma OldToken(h: Hash, s: Store, a: Action, t: Secret)
    requires Enabled(h, s, a) && t in Do(h, s, a).refresh && !(a.StoreRefresh? && t == a.value)
    ensures t in s.refresh && Do(h, s, a).refresh[t].family == s.refresh[t].family
            && Do(h, s, a).refresh[t].grant == s.refresh[t].grant
  {
  }

  lemma OldAccess(h: Hash, s: Store, a: Action, t: Secret)
    requires Enabled(h, s, a) && t in Do(h, s, a).access && !(a.StoreAccess? && t == a.value)
    ensures t in s.access && Do(h, s, a).access[t].grant == s.access[t].grant
    ensures t in s.drawn && t in s.familyOf ==>
              t in Do(h, s, a).drawn && t in Do(h, s, a).familyOf && Do(h, s, a).familyOf[t] == s.familyOf[t]
  {
  }

  lemma AccessTraced(h: Hash, s: Store, a: Action, t: Secret)
    requires Enabled(h, s, a) && CodesFromConsents(s) && FamiliesTraced(s) && TokensTraced(s)
    requires t in Do(h, s, a).access
    ensures t in Do(h, s, a).drawn && t in Do(h, s, a).familyOf
    ensures FamilyFrom(Do(h, s, a), Do(h, s, a).familyOf[t], Do(h, s, a).access[t].grant)
  {
    if a.StoreAccess? && t == a.value {
      FamilyKept(h, s, a, s.flights[a.pid].line, s.flights[a.pid].issue);
    } else {
      OldAccess(h, s, a, t);
      FamilyKept(h, s, a, s.familyOf[t], s.access[t].grant);
    }
  }

  lemma TokensTracedStep(h: Hash, s: Store, a: Action)
    requires CodesFromConsents(s) && FamiliesTraced(s) && TokensTraced(s) && Enabled(h, s, a)
    ensures TokensTraced(Do(h, s, a))
  {
    var s' := Do(h, s, a);
    forall p | p in s'.flights && Rotating(s'.flights[p])
      ensures FamilyFrom(s', s'.flights[p].line, s'.flights[p].issue)
    {
      if Plain(a) {
        PlainFlightTraced(h, s, a, p);
      } else {
        FlightTraced(h, s, a, p);
      }
    }
    forall t | t in s'.refresh
      ensures FamilyFrom(s', s'.refresh[t].family, s'.refresh[t].grant)
    {
      RefreshTraced(h, s, a, t);
    }
    forall t | t in s'.access
      ensures t in s'.drawn && t in s'.familyOf && FamilyFrom(s', s'.familyOf[t], s'.access[t].grant)
    {
      AccessTraced(h, s, a, t);
    }
  }

  // ---------------------------------------------------------------------
  // Whole runs

  ghost predicate Traced(s: Store) {
    ConsentsPermitted(s) && CodesTraced(s) && FamiliesTraced(s) && TokensTraced(s)
  }

  lemma TracedStep(h: Hash, s: Store, a: Action)
    requires Traced(s)
    ensures Traced(Step(h, s, a))
  {
    ConsentsPermittedStep(h, s, a);
    CodesTracedStep(h, s, a);
    if Enabled(h, s, a) {
      FamiliesTracedStep(h, s, a);
      TokensTracedStep(h, s, a);
    }
  }

  lemma {:induction false} TracedRun(h: Hash, s: Store, actions: seq<Action>)
    requires Traced(s)
    ensures Traced(Run(h, s, actions))
    decreases actions
  {
    if actions != [] {
      TracedStep(h, s, actions[0]);
      TracedRun(h, Step(h, s, actions[0]), actions[1..]);
    }
  }

  /** The consent behind family `f`. */
  function ConsentBehind(s: Store, f: Secret): Option<Consent> {
    if f in s.codeOf && s.codeOf[f] in s.consentOf && s.consentOf[s.codeOf[f]] in s.consents
    then Some(s.consents[s.consentOf[s.codeOf[f]]]) else None
  }

  lemma GrantBehind(s: Store, f: Secret, g: Grant)
    requires Traced(s) && FamilyFrom(s, f, g)
    ensures var c := ConsentBehind(s, f);
            && c.Some? && c.value.used && c.value.grant == g
            && g.client in s.apps && WithinAllowed(s.apps[g.client], g.scope)
  {
    var k := s.codeOf[f];
    assert CodeFrom(s, k, s.consentOf[k]);
  }

  /** In every interleaving from the start: every refresh and access token ever stored
      traces back, over its family and the code that opened it, to one used consent
      with the same user, client and scope, and that scope is within what the
      application may ask for. */
  lemma EveryTokenFromConsent(h: Hash, actions: seq<Action>, t: Secret)
    ensures var s := Run(h, EMPTY, actions);
            && (t in s.refresh ==>
                  && ConsentBehind(s, s.refresh[t].family).Some?
                  && ConsentBehind(s, s.refresh[t].family).value.used
                  && ConsentBehind(s, s.refresh[t].family).value.grant == s.refresh[t].grant
                  && s.refresh[t].grant.client in s.apps
                  && WithinAllowed(s.apps[s.refresh[t].grant.client], s.refresh[t].grant.scope))
            && (t in s.access ==>
                  && t in s.familyOf && ConsentBehind(s, s.familyOf[t]).Some?
                  && ConsentBehind(s, s.familyOf[t]).value.used
                  && ConsentBehind(s, s.familyOf[t]).value.grant == s.access[t].grant
                  && s.access[t].grant.client in s.apps
                  && WithinAllowed(s.apps[s.access[t].grant.client], s.access[t].grant.scope))
  {
    TracedRun(h, EMPTY, actions);
    var s := Run(h, EMPTY, actions);
    if t in s.refresh {
      GrantBehind(s, s.refresh[t].family, s.refresh[t].grant);
    }
    if t in s.access {
      GrantBehind(s, s.familyOf[t], s.access[t].grant);
    }
  }

  /** Different families come from different consents. */
  lemma FamiliesInjectIntoConsents(h: Hash, actions: seq<Action>, f: Secret, g: Secret)
    ensures var s := Run(h, EMPTY, actions);
            f in s.codeOf && g in s.codeOf ==>
              && s.codeOf[f] in s.consentOf && s.codeOf[g] in s.consentOf
              && (s.consentOf[s.codeOf[f]] == s.consentOf[s.codeOf[g]] ==> f == g)
  {
    TracedRun(h, EMPTY, actions);
  }

  // ---------------------------------------------------------------------
  // A denied consent is never behind anything

  /** Consent `r` is used, and neither a code nor an approval in flight stands on it. */
  ghost predicate Closed(s: Store, r: Secret) {
    && r in s.consents && s.consents[r].used && r in s.drawn
    && (forall k <- s.consentOf :: s.consentOf[k] != r)
    && (forall p :: Approval(s, p) ==> s.flights[p].request != r)
  }

  lemma ClosedStep(h: Hash, s: Store, a: Action, r: Secret)
    requires CodesTraced(s) && Closed(s, r)
    ensures Closed(Step(h, s, a), r)
  {
    if Enabled(h, s, a) {
      var s' := Do(h, s, a);
      ConsentKept(h, s, a, r);
      forall k | k in s'.consentOf
        ensures s'.consentOf[k] != r
      {
        ConsentOfBefore(h, s, a, k);
      }
      forall p | Approval(s', p)
        ensures s'.flights[p].request != r
      {
        NewApprovals(h, s, a, p);
        assert (a.Approve? && p == a.pid) || Approval(s, p);
      }
    }
  }

  lemma {:induction false} ClosedForever(h: Hash, s: Store, actions: seq<Action>, r: Secret)
    requires CodesTraced(s) && Closed(s, r)
    ensures Closed(Run(h, s, actions), r)
    decreases actions
  {
    if actions != [] {
      ClosedStep(h, s, actions[0], r);
      CodesTracedStep(h, s, actions[0]);
      ClosedForever(h, Step(h, s, actions[0]), actions[1..], r);
    }
  }

  lemma DenyCloses(h: Hash, s: Store, user: Id, r: Secret, csrf: Secret)
    requires CodesTraced(s) && Enabled(h, s, Deny(user, r, csrf))
    ensures Closed(Do(h, s, Deny(user, r, csrf)), r)
  {
    var s' := Do(h, s, Deny(user, r, csrf));
    forall k | k in s'.consentOf
      ensures s'.consentOf[k] != r
    {
      assert CodeFrom(s, k, s.consentOf[k]);
    }
    forall p | Approval(s', p)
      ensures s'.flights[p].request != r
    {
      assert Approval(s, p);
    }
  }

  /** Once a consent is denied, no code, family or token ever comes from it. */
  lemma DeniedYieldsNothing(h: Hash, before: seq<Action>, user: Id, r: Secret, csrf: Secret, after: seq<Action>, f: Secret)
    requires OpenConsent(Run(h, EMPTY, before), user, r, csrf)
    ensures var s := Run(h, EMPTY, before + [Deny(user, r, csrf)] + after);
            && (forall k <- s.consentOf :: s.consentOf[k] != r)
            && (f in s.codeOf ==> s.codeOf[f] in s.consentOf && s.consentOf[s.codeOf[f]] != r)
  {
    var deny := Deny(user, r, csrf);
    var s0 := Run(h, EMPTY, before);
    TracedRun(h, EMPTY, before);
    DenyCloses(h, s0, user, r, csrf);
    TracedStep(h, s0, deny);
    RunOne(h, s0, deny);
    RunAppend(h, EMPTY, before, [deny]);
    RunAppend(h, EMPTY, before + [deny], after);
    ClosedForever(h, Step(h, s0, deny), after, r);
    TracedRun(h, Step(h, s0, deny), after);
  }
}
