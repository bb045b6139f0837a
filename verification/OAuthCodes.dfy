/** Codes and refresh tokens are good for one answer each, and a public client's code
    only for the holder of the verifier. */
module OAuthCodes {
  import opened Entities
  import opened Compare
  import opened OAuth
  import opened OAuthFamilies
  import opened OAuthProvenance

  /** The one-time value a pair of tokens is given for. */
  datatype Key = CodeKey(code: Secret) | TokenKey(token: Secret)

  function KeyOf(source: Source): Key {
    match source
    case FromCode(code, _) => CodeKey(code)
    case FromRefresh(token) => TokenKey(token)
  }

  predicate Consumed(s: Store, key: Key) {
    match key
    case CodeKey(code) => code in s.codes && s.codes[code].used
    case TokenKey(token) => token in s.refresh && s.refresh[token].revoked
  }

  /** Request `p` is issuing tokens for `key`. */
  predicate Spends(s: Store, p: nat, key: Key) {
    p in s.flights && Rotating(s.flights[p]) && KeyOf(s.flights[p].source) == key
  }

  /** Response `i` was given for `key`. */
  predicate Answered(s: Store, i: nat, key: Key) {
    i < |s.responses| && KeyOf(s.responses[i].source) == key
  }

  /** Each key has at most one of: a request issuing for it, a response. */
  ghost predicate OneAnswer(s: Store) {
    && (forall p, key :: Spends(s, p, key) ==> Consumed(s, key))
    && (forall i, key :: Answered(s, i, key) ==> Consumed(s, key))
    && (forall p, q, key :: Spends(s, p, key) && Spends(s, q, key) ==> p == q)
    && (forall i, j, key :: Answered(s, i, key) && Answered(s, j, key) ==> i == j)
    && (forall p, i, key :: Spends(s, p, key) ==> !Answered(s, i, key))
  }

  ghost predicate KeysDrawn(s: Store) {
    (forall k <- s.codes :: k in s.drawn) && (forall t <- s.refresh :: t in s.drawn)
  }

  lemma KeysDrawnStep(h: Hash, s: Store, a: Action)
    requires KeysDrawn(s) && Enabled(h, s, a)
    ensures KeysDrawn(Do(h, s, a))
  {
  }

  lemma ConsumedKept(h: Hash, s: Store, a: Action, key: Key)
    requires KeysDrawn(s) && Enabled(h, s, a) && Consumed(s, key)
    ensures Consumed(Do(h, s, a), key)
  {
    if key.CodeKey? {
      CodeKept(h, s, a, key.code);
    } else {
      RevokedKept(h, s, a, key.token);
    }
  }

  lemma RevokedKept(h: Hash, s: Store, a: Action, t: Secret)
    requires Enabled(h, s, a) && t in s.refresh && s.refresh[t].revoked && t in s.drawn
    ensures t in Do(h, s, a).refresh && Do(h, s, a).refresh[t].revoked
  {
  }

  /** A request that is issuing was issuing before, or has just consumed its key. */
  lemma SpendsBefore(h: Hash, s: Store, a: Action, p: nat, key: Key)
    requires Enabled(h, s, a) && Spends(Do(h, s, a), p, key)
    ensures || (Spends(s, p, key) && !(a.StoreRefresh? && p == a.pid))
            || ((a.TakeCode? || a.TakeRefresh?) && p == a.pid && !Consumed(s, key) && Consumed(Do(h, s, a), key))
  {
  }

  /** A response was there before, or ends a request that was issuing. */
  lemma AnsweredBefore(h: Hash, s: Store, a: Action, i: nat, key: Key)
    requires Enabled(h, s, a) && Answered(Do(h, s, a), i, key)
    ensures Answered(s, i, key) || (a.StoreRefresh? && i == |s.responses| && Spends(s, a.pid, key))
  {
  }

  lemma SpendsDiffer(h: Hash, s: Store, a: Action, p: nat, q: nat, key: Key)
    requires OneAnswer(s) && Enabled(h, s, a) && Spends(Do(h, s, a), p, key) && Spends(Do(h, s, a), q, key)
    ensures p == q
  {
    SpendsBefore(h, s, a, p, key);
    SpendsBefore(h, s, a, q, key);
  }

  lemma AnswersDiffer(h: Hash, s: Store, a: Action, i: nat, j: nat, key: Key)
    requires OneAnswer(s) && Enabled(h, s, a) && Answered(Do(h, s, a), i, key) && Answered(Do(h, s, a), j, key)
    ensures i == j
  {
    AnsweredBefore(h, s, a, i, key);
    AnsweredBefore(h, s, a, j, key);
  }

  lemma NotBoth(h: Hash, s: Store, a: Action, p: nat, i: nat, key: Key)
    requires OneAnswer(s) && Enabled(h, s, a) && Spends(Do(h, s, a), p, key)
    ensures !Answered(Do(h, s, a), i, key)
  {
    SpendsBefore(h, s, a, p, key);
    if Answered(Do(h, s, a), i, key) {
      AnsweredBefore(h, s, a, i, key);
      assert false;
    }
  }

  lemma KeyConsumed(h: Hash, s: Store, a: Action, key: Key)
    requires KeysDrawn(s) && OneAnswer(s) && Enabled(h, s, a)
    ensures forall p :: Spends(Do(h, s, a), p, key) ==> Consumed(Do(h, s, a), key)
    ensures forall i :: Answered(Do(h, s, a), i, key) ==> Consumed(Do(h, s, a), key)
  {
    if Consumed(s, key) {
      ConsumedKept(h, s, a, key);
    } else {
      forall p | Spends(Do(h, s, a), p, key)
        ensures Consumed(Do(h, s, a), key)
      {
        SpendsBefore(h, s, a, p, key);
      }
      forall i
        ensures !Answered(Do(h, s, a), i, key)
      {
        if Answered(Do(h, s, a), i, key) {
          AnsweredBefore(h, s, a, i, key);
          assert false;
        }
      }
    }
  }

  lemma OneAnswerStep(h: Hash, s: Store, a: Action)
    requires KeysDrawn(s) && OneAnswer(s)
    ensures KeysDrawn(Step(h, s, a)) && OneAnswer(Step(h, s, a))
  {
    if Enabled(h, s, a) {
      KeysDrawnStep(h, s, a);
      AssembleOneAnswer(h, s, a, Do(h, s, a));
    }
  }

  lemma AssembleOneAnswer(h: Hash, s: Store, a: Action, s': Store)
    requires KeysDrawn(s) && OneAnswer(s) && Enabled(h, s, a) && s' == Do(h, s, a)
    ensures OneAnswer(s')
  {
    forall key
      ensures forall p :: Spends(s', p, key) ==> Consumed(s', key)
      ensures forall i :: Answered(s', i, key) ==> Consumed(s', key)
    {
      KeyConsumed(h, s, a, key);
    }
    forall p, q, key | Spends(s', p, key) && Spends(s', q, key)
      ensures p == q
    {
      SpendsDiffer(h, s, a, p, q, key);
    }
    forall i, j, key | Answered(s', i, key) && Answered(s', j, key)
      ensures i == j
    {
      AnswersDiffer(h, s, a, i, j, key);
    }
    forall p, i, key | Spends(s', p, key)
      ensures !Answered(s', i, key)
    {
      NotBoth(h, s, a, p, i, key);
    }
  }

  lemma {:induction false} OneAnswerRun(h: Hash, s: Store, actions: seq<Action>)
    requires KeysDrawn(s) && OneAnswer(s)
    ensures OneAnswer(Run(h, s, actions))
    decreases actions
  {
    if actions != [] {
      OneAnswerStep(h, s, actions[0]);
      OneAnswerRun(h, Step(h, s, actions[0]), actions[1..]);
    }
  }

  /** In every interleaving, an authorization code and a refresh token each lead to at
      most one token response. */
  lemma AtMostOneResponse(h: Hash, actions: seq<Action>, i: nat, j: nat)
    ensures var rs := Run(h, EMPTY, actions).responses;
            i < |rs| && j < |rs| && KeyOf(rs[i].source) == KeyOf(rs[j].source) ==> i == j
  {
    OneAnswerRun(h, EMPTY, actions);
    var s := Run(h, EMPTY, actions);
    if i < |s.responses| && j < |s.responses| && KeyOf(s.responses[i].source) == KeyOf(s.responses[j].source) {
      assert Answered(s, i, KeyOf(s.responses[i].source));
      assert Answered(s, j, KeyOf(s.responses[i].source));
    }
  }

  // ---------------------------------------------------------------------
  // A code that is burned

  /** Consumed, and neither answered nor about to be. */
  ghost predicate Wasted(s: Store, key: Key) {
    Consumed(s, key) && (forall p :: !Spends(s, p, key)) && (forall i :: !Answered(s, i, key))
  }

  lemma WastedStep(h: Hash, s: Store, a: Action, key: Key)
    requires KeysDrawn(s) && Wasted(s, key)
    ensures Wasted(Step(h, s, a), key)
  {
    if Enabled(h, s, a) {
      var s' := Do(h, s, a);
      ConsumedKept(h, s, a, key);
      forall p
        ensures !Spends(s', p, key)
      {
        if Spends(s', p, key) {
          SpendsBefore(h, s, a, p, key);
          assert false;
        }
      }
      forall i
        ensures !Answered(s', i, key)
      {
        if Answered(s', i, key) {
          AnsweredBefore(h, s, a, i, key);
          assert false;
        }
      }
    }
  }

  lemma {:induction false} WastedForever(h: Hash, s: Store, actions: seq<Action>, key: Key)
    requires KeysDrawn(s) && Wasted(s, key)
    ensures Wasted(Run(h, s, actions), key)
    decreases actions
  {
    if actions != [] {
      WastedStep(h, s, actions[0], key);
      if Enabled(h, s, actions[0]) {
        KeysDrawnStep(h, s, actions[0]);
      }
      WastedForever(h, Step(h, s, actions[0]), actions[1..], key);
    }
  }

  lemma BurnWastes(h: Hash, s: Store, pid: nat)
    requires OneAnswer(s) && Enabled(h, s, BurnCode(pid))
    ensures Wasted(Do(h, s, BurnCode(pid)), CodeKey(s.flights[pid].code))
  {
    var key := CodeKey(s.flights[pid].code);
    var s' := Do(h, s, BurnCode(pid));
    assert !Consumed(s, key) && Consumed(s', key);
    forall p
      ensures !Spends(s', p, key)
    {
      assert !Spends(s, p, key);
    }
    forall i
      ensures !Answered(s', i, key)
    {
      assert !Answered(s, i, key);
    }
  }

  lemma {:induction false} KeysDrawnRun(h: Hash, s: Store, actions: seq<Action>)
    requires KeysDrawn(s)
    ensures KeysDrawn(Run(h, s, actions))
    decreases actions
  {
    if actions != [] {
      if Enabled(h, s, actions[0]) {
        KeysDrawnStep(h, s, actions[0]);
      }
      KeysDrawnRun(h, Step(h, s, actions[0]), actions[1..]);
    }
  }

  /** An exchange that names the wrong redirect address or brings no fitting verifier burns the
      code: no response, before or after, is ever given for it. */
  lemma FailedExchangeBurns(h: Hash, before: seq<Action>, pid: nat, after: seq<Action>, r: Response)
    requires var s := Run(h, EMPTY, before);
             && pid in s.flights && s.flights[pid].Exchanging?
             && var f := s.flights[pid];
                && OpenCode(s, f.client, f.code)
                && (f.uri != Some(s.codes[f.code].redirect)
                    || (s.codes[f.code].challenge.Some?
                        && (f.verifier.None? || h(f.verifier.value) != s.codes[f.code].challenge.value)))
    requires r in Run(h, EMPTY, before + [BurnCode(pid)] + after).responses
    ensures KeyOf(r.source) != CodeKey(Run(h, EMPTY, before).flights[pid].code)
  {
    var s := Run(h, EMPTY, before);
    var key := CodeKey(s.flights[pid].code);
    OneAnswerRun(h, EMPTY, before);
    KeysDrawnRun(h, EMPTY, before);
    BurnWastes(h, s, pid);
    RunAppend(h, EMPTY, before, [BurnCode(pid)]);
    RunOne(h, s, BurnCode(pid));
    KeysDrawnStep(h, s, BurnCode(pid));
    WastedForever(h, Step(h, s, BurnCode(pid)), after, key);
    RunAppend(h, EMPTY, before + [BurnCode(pid)], after);
    var s' := Run(h, EMPTY, before + [BurnCode(pid)] + after);
    var i: nat :| i < |s'.responses| && s'.responses[i] == r;
    assert !Answered(s', i, key);
  }

  // ---------------------------------------------------------------------
  // The verifier

  /** Tokens for a code are for the code's grant, and the verifier met its challenge. */
  predicate Earned(h: Hash, s: Store, source: Source, grant: Grant) {
    source.FromCode? ==>
      && source.code in s.codes && source.code in s.drawn
      && s.codes[source.code].grant == grant
      && (s.codes[source.code].challenge.Some? ==>
            source.verifier.Some? && h(source.verifier.value) == s.codes[source.code].challenge.value)
  }

  ghost predicate AllEarned(h: Hash, s: Store) {
    && (forall p <- s.flights :: Rotating(s.flights[p]) ==> Earned(h, s, s.flights[p].source, s.flights[p].issue))
    && (forall i :: 0 <= i < |s.responses| ==> Earned(h, s, s.responses[i].source, s.responses[i].grant))
  }

  lemma EarnedKept(h: Hash, s: Store, a: Action, source: Source, grant: Grant)
    requires Enabled(h, s, a) && Earned(h, s, source, grant)
    ensures Earned(h, Do(h, s, a), source, grant)
  {
    if source.FromCode? {
      CodeKept(h, s, a, source.code);
      DrawnKept(h, s, a, source.code);
    }
  }

  lemma EarnedTake(h: Hash, s: Store, a: Action)
    requires KeysDrawn(s) && Enabled(h, s, a) && a.TakeCode?
    ensures var f := Do(h, s, a).flights[a.pid]; Earned(h, Do(h, s, a), f.source, f.issue)
  {
  }

  lemma RotatingBefore(h: Hash, s: Store, a: Action, p: nat)
    requires Enabled(h, s, a) && p in Do(h, s, a).flights && Rotating(Do(h, s, a).flights[p])
    requires !(a.TakeCode? && p == a.pid)
    ensures var f := Do(h, s, a).flights[p];
            || f.source.FromRefresh?
            || (p in s.flights && Rotating(s.flights[p]) && s.flights[p].source == f.source && s.flights[p].issue == f.issue)
  {
  }

  lemma EarnedFlight(h: Hash, s: Store, a: Action, p: nat)
    requires KeysDrawn(s) && AllEarned(h, s) && Enabled(h, s, a)
    requires p in Do(h, s, a).flights && Rotating(Do(h, s, a).flights[p])
    ensures Earned(h, Do(h, s, a), Do(h, s, a).flights[p].source, Do(h, s, a).flights[p].issue)
  {
    if a.TakeCode? && p == a.pid {
      EarnedTake(h, s, a);
    } else {
      RotatingBefore(h, s, a, p);
      if !Do(h, s, a).flights[p].source.FromRefresh? {
        EarnedKept(h, s, a, s.flights[p].source, s.flights[p].issue);
      }
    }
  }

  lemma ResponseBefore(h: Hash, s: Store, a: Action, i: nat)
    requires Enabled(h, s, a) && i < |Do(h, s, a).responses|
    ensures var r := Do(h, s, a).responses[i];
            if i < |s.responses| then r == s.responses[i]
            else
              && a.StoreRefresh? && a.pid in s.flights && Rotating(s.flights[a.pid])
              && r.source == s.flights[a.pid].source && r.grant == s.flights[a.pid].issue
  {
  }

  lemma EarnedResponse(h: Hash, s: Store, a: Action, i: nat)
    requires AllEarned(h, s) && Enabled(h, s, a) && i < |Do(h, s, a).responses|
    ensures Earned(h, Do(h, s, a), Do(h, s, a).responses[i].source, Do(h, s, a).responses[i].grant)
  {
    ResponseBefore(h, s, a, i);
    EarnedKept(h, s, a, Do(h, s, a).responses[i].source, Do(h, s, a).responses[i].grant);
  }

  lemma AllEarnedStep(h: Hash, s: Store, a: Action)
    requires KeysDrawn(s) && AllEarned(h, s)
    ensures KeysDrawn(Step(h, s, a)) && AllEarned(h, Step(h, s, a))
  {
    if Enabled(h, s, a) {
      KeysDrawnStep(h, s, a);
      var s' := Do(h, s, a);
      forall p | p in s'.flights && Rotating(s'.flights[p])
        ensures Earned(h, s', s'.flights[p].source, s'.flights[p].issue)
      {
        EarnedFlight(h, s, a, p);
      }
      forall i | 0 <= i < |s'.responses|
        ensures Earned(h, s', s'.responses[i].source, s'.responses[i].grant)
      {
        EarnedResponse(h, s, a, i);
      }
    }
  }

  lemma {:induction false} AllEarnedRun(h: Hash, s: Store, actions: seq<Action>)
    requires KeysDrawn(s) && AllEarned(h, s)
    ensures AllEarned(h, Run(h, s, actions))
    decreases actions
  {
    if actions != [] {
      AllEarnedStep(h, s, actions[0]);
      AllEarnedRun(h, Step(h, s, actions[0]), actions[1..]);
    }
  }

  /** In every interleaving, a token response for an authorization code is for the user,
      client and scope of one used consent; if a challenge was stored when the user was asked,
      the request carried a verifier whose hash it is; and for a public application there
      was one. */
  lemma PublicClientsProveTheVerifier(h: Hash, actions: seq<Action>, i: nat)
    requires var rs := Run(h, EMPTY, actions).responses; i < |rs| && rs[i].source.FromCode?
    ensures var s := Run(h, EMPTY, actions);
            var r := s.responses[i];
            && r.source.code in s.consentOf
            && s.consentOf[r.source.code] in s.consents
            && var c := s.consents[s.consentOf[r.source.code]];
            && c.used && c.grant == r.grant && r.grant.client in s.apps
            && (s.apps[r.grant.client].public ==> c.challenge.Some?)
            && (c.challenge.Some? ==> r.source.verifier.Some? && h(r.source.verifier.value) == c.challenge.value)
  {
    AllEarnedRun(h, EMPTY, actions);
    TracedRun(h, EMPTY, actions);
    var s := Run(h, EMPTY, actions);
    var k := s.responses[i].source.code;
    assert Earned(h, s, s.responses[i].source, s.responses[i].grant);
    assert CodeFrom(s, k, s.consentOf[k]);
  }
}
