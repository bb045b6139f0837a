/** The override algebra: permission values, folds of overrides, and the check
    that guards override edits. */
module Overrides {
  import opened Entities

  const VIEW_CHANNEL: Bit := 20
  const READ_MESSAGE_HISTORY: Bit := 21
  const SPEAK: Bit := 31
  const VIDEO: Bit := 32
  const LISTEN: Bit := 36
  const GRANT_ALL_SAFE: Bits := set b: Bit | b < 52
  const ALLOW_IN_TIMEOUT: Bits := {VIEW_CHANNEL, READ_MESSAGE_HISTORY}
  const NO_OVERRIDE := Override({}, {})

  function Apply(p: Bits, o: Override): Bits {
    (p + o.allow) - o.deny
  }

  function Fold(p: Bits, os: seq<Override>): Bits
    decreases os
  {
    if os == [] then p else Fold(Apply(p, os[0]), os[1..])
  }

  /** The mutable permission value that the calculators edit. */
  class PermissionValue {
    var raw: Bits

    constructor (v: Bits)
      ensures raw == v
    {
      raw := v;
    }

    method Allow(v: Bits)
      modifies this
      ensures raw == old(raw) + v
    {
      raw := raw + v;
    }

    method Revoke(v: Bits)
      modifies this
      ensures raw == old(raw) - v
    {
      raw := raw - v;
    }

    method RevokeAll()
      modifies this
      ensures raw == {}
    {
      raw := {};
    }

    method Restrict(v: Bits)
      modifies this
      ensures raw == old(raw) * v
    {
      raw := raw * v;
    }

    method ApplyOverride(o: Override)
      modifies this
      ensures raw == Apply(old(raw), o)
    {
      Allow(o.allow);
      Revoke(o.deny);
    }

    /** The loop of the calculators over an ordered list of overrides. */
    method ApplyAll(os: seq<Override>)
      modifies this
      ensures raw == Fold(old(raw), os)
    {
      for i := 0 to |os|
        invariant Fold(raw, os[i..]) == Fold(old(raw), os)
      {
        assert os[i..][0] == os[i] && os[i..][1..] == os[i + 1..];
        ApplyOverride(os[i]);
      }
    }
  }

  // ---------------------------------------------------------------------
  // A list of overrides is one override

  function Compose(first: Override, second: Override): Override {
    Override(first.allow + second.allow, (first.deny - second.allow) + second.deny)
  }

  function Collapse(os: seq<Override>): Override {
    if os == [] then NO_OVERRIDE else Compose(os[0], Collapse(os[1..]))
  }

  lemma {:induction false} FoldCollapses(p: Bits, os: seq<Override>)
    ensures Fold(p, os) == Apply(p, Collapse(os))
    decreases os
  {
    if os != [] {
      FoldCollapses(Apply(p, os[0]), os[1..]);
      assert Apply(Apply(p, os[0]), Collapse(os[1..])) == Apply(p, Collapse(os));
    }
  }

  lemma {:induction false} FoldAppend(p: Bits, s: seq<Override>, t: seq<Override>)
    ensures Fold(p, s + t) == Fold(Fold(p, s), t)
    decreases s
  {
    if s == [] {
      assert s + t == t;
    } else {
      assert (s + t)[1..] == s[1..] + t;
      FoldAppend(Apply(p, s[0]), s[1..], t);
    }
  }

  // ---------------------------------------------------------------------
  // Each bit is decided by the last override that mentions it

  predicate Mentions(o: Override, b: Bit) {
    b in o.allow || b in o.deny
  }

  /** The index of the last override that mentions `b`, or -1. */
  function LastMention(os: seq<Override>, b: Bit): (r: int)
    ensures -1 <= r < |os|
    ensures r >= 0 ==> Mentions(os[r], b)
    ensures forall j :: r < j < |os| ==> !Mentions(os[j], b)
  {
    if os == [] then -1
    else if Mentions(os[|os| - 1], b) then |os| - 1
    else LastMention(os[..|os| - 1], b)
  }

  lemma {:induction false} LastMentionDecides(p: Bits, os: seq<Override>, b: Bit)
    ensures var r := LastMention(os, b);
            b in Fold(p, os) <==> if r < 0 then b in p else b !in os[r].deny
  {
    if os != [] {
      var init, last := os[..|os| - 1], os[|os| - 1];
      assert os == init + [last];
      FoldAppend(p, init, [last]);
      LastMentionDecides(p, init, b);
    }
  }

  // ---------------------------------------------------------------------
  // The guard on override edits

  /** `throw_permission_override` accepts when the actor's permissions cover every
      allow that is added and every deny that is lifted. */
  predicate AcceptsEdit(actor: Bits, current: Option<Override>, next: Override) {
    match current
    case Some(o) => next.allow - o.allow <= actor && o.deny - next.deny <= actor
    case None => next.allow <= actor
  }

  /** The override list after the edit at position `i`: the old entry replaced,
      or a new entry put in. */
  function Edit(os: seq<Override>, i: nat, current: Option<Override>, next: Override): seq<Override>
    requires if current.Some? then i < |os| && os[i] == current.value else i <= |os|
  {
    if current.Some? then os[i := next] else os[..i] + [next] + os[i..]
  }

  function Before(current: Option<Override>): seq<Override> {
    if current.Some? then [current.value] else []
  }

  /** Both versions of the list, with the edited place made explicit. */
  lemma EditSplits(os: seq<Override>, i: nat, current: Option<Override>, next: Override)
    returns (pre: seq<Override>, post: seq<Override>)
    requires if current.Some? then i < |os| && os[i] == current.value else i <= |os|
    ensures os == pre + Before(current) + post
    ensures Edit(os, i, current, next) == pre + [next] + post
  {
    pre, post := os[..i], os[i + |Before(current)|..];
  }

  lemma {:induction false} FoldGrows(p: Bits, q: Bits, os: seq<Override>)
    ensures Fold(q, os) - Fold(p, os) <= q - p
    decreases os
  {
    if os != [] {
      FoldGrows(Apply(p, os[0]), Apply(q, os[0]), os[1..]);
    }
  }

  /** An accepted edit, at any position of any override list and on any base
      value, grants only bits that the actor holds. */
  lemma EditGrantsOnlyHeld(
    actor: Bits, base: Bits, os: seq<Override>, i: nat, current: Option<Override>, next: Override)
    requires if current.Some? then i < |os| && os[i] == current.value else i <= |os|
    requires AcceptsEdit(actor, current, next)
    ensures Fold(base, Edit(os, i, current, next)) - Fold(base, os) <= actor
  {
    var pre, post := EditSplits(os, i, current, next);
    FoldAppend(base, pre + Before(current), post);
    FoldAppend(base, pre, Before(current));
    FoldAppend(base, pre + [next], post);
    FoldAppend(base, pre, [next]);
    var mid := Fold(base, pre);
    assert Fold(mid, [next]) == Apply(mid, next);
    if current.Some? {
      assert Fold(mid, Before(current)) == Apply(mid, current.value);
    }
    assert Fold(mid, [next]) - Fold(mid, Before(current)) <= actor;
    FoldGrows(Fold(mid, Before(current)), Fold(mid, [next]), post);
  }

  /** The check is exact for overrides that do not allow and deny the same bit:
      it accepts precisely the edits that never grant a bit the actor lacks. */
  lemma EditCheckExact(actor: Bits, current: Option<Override>, next: Override)
    requires next.allow !! next.deny
    ensures AcceptsEdit(actor, current, next) <==>
            forall base: Bits :: Fold(base, [next]) - Fold(base, Before(current)) <= actor
  {
    if AcceptsEdit(actor, current, next) {
      forall base: Bits
        ensures Fold(base, [next]) - Fold(base, Before(current)) <= actor
      {
        EditGrantsOnlyHeld(actor, base, Before(current), 0, current, next);
        assert Edit(Before(current), 0, current, next) == [next];
      }
    } else {
      var prev := if current.Some? then current.value else NO_OVERRIDE;
      var b: Bit :| b !in actor && (b in next.allow - prev.allow || b in prev.deny - next.deny);
      var base: Bits := if b in next.allow - prev.allow then {} else {b};
      assert Fold(base, [next]) == Apply(base, next);
      assert Fold(base, Before(current)) == Apply(base, prev);
      assert b in Fold(base, [next]) - Fold(base, Before(current));
    }
  }

  /** Without that condition the check also refuses edits that grant nothing. */
  lemma EditCheckOverRejects(b: Bit)
    ensures !AcceptsEdit({}, None, Override({b}, {b}))
    ensures forall base: Bits :: Fold(base, [Override({b}, {b})]) <= base
  {
    forall base: Bits
      ensures Fold(base, [Override({b}, {b})]) <= base
    {
      assert Fold(base, [Override({b}, {b})]) == Apply(base, Override({b}, {b}));
    }
    assert b in Override({b}, {b}).allow;
  }
}
