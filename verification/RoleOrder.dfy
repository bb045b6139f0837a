/** The order in which role overrides are applied: selected from a hash map in
    some iteration order, then sorted by descending rank with a stable sort. */
module RoleOrder {
  import opened Entities
  import opened Overrides

  datatype Ranked = Ranked(rank: int, permissions: Override)

  /** One insertion of the stable sort: before the first entry that does not rank higher. */
  function Insert(e: Ranked, s: seq<Ranked>): seq<Ranked> {
    if s == [] || e.rank >= s[0].rank then [e] + s else [s[0]] + Insert(e, s[1..])
  }

  /** `sort_by(|a, b| b.rank.cmp(&a.rank))`. */
  function SortByRank(s: seq<Ranked>): seq<Ranked> {
    if s == [] then [] else Insert(s[0], SortByRank(s[1..]))
  }

  lemma {:induction false} InsertPermutes(e: Ranked, s: seq<Ranked>)
    ensures multiset(Insert(e, s)) == multiset(s) + multiset{e}
  {
    if s != [] && e.rank < s[0].rank {
      InsertPermutes(e, s[1..]);
      assert s == [s[0]] + s[1..];
    }
  }

  lemma {:induction false} InsertMembers(e: Ranked, s: seq<Ranked>, g: Ranked)
    ensures g in Insert(e, s) <==> g == e || g in s
  {
    InsertPermutes(e, s);
    assert g in Insert(e, s) <==> g in multiset(Insert(e, s));
  }

  lemma {:induction false} SortPermutes(s: seq<Ranked>)
    ensures multiset(SortByRank(s)) == multiset(s)
  {
    if s != [] {
      SortPermutes(s[1..]);
      InsertPermutes(s[0], SortByRank(s[1..]));
      assert s == [s[0]] + s[1..];
    }
  }

  ghost predicate Descending(s: seq<Ranked>) {
    forall i, j :: 0 <= i < j < |s| ==> s[i].rank >= s[j].rank
  }

  function OfRank(s: seq<Ranked>, rank: int): seq<Ranked> {
    if s == [] then []
    else (if s[0].rank == rank then [s[0]] else []) + OfRank(s[1..], rank)
  }

  lemma {:induction false} InsertSorts(e: Ranked, s: seq<Ranked>)
    requires Descending(s)
    ensures Descending(Insert(e, s))
  {
    if s != [] && e.rank < s[0].rank {
      InsertSorts(e, s[1..]);
      var tail := Insert(e, s[1..]);
      forall x | x in tail
        ensures x.rank <= s[0].rank
      {
        InsertMembers(e, s[1..], x);
      }
    }
  }

  lemma OfRankCons(x: Ranked, s: seq<Ranked>, rank: int)
    ensures OfRank([x] + s, rank) == (if x.rank == rank then [x] + OfRank(s, rank) else OfRank(s, rank))
  {
    assert ([x] + s)[1..] == s;
  }

  lemma {:induction false} InsertIsStable(e: Ranked, s: seq<Ranked>, rank: int)
    ensures OfRank(Insert(e, s), rank) == if e.rank == rank then [e] + OfRank(s, rank) else OfRank(s, rank)
  {
    if s != [] && e.rank < s[0].rank {
      InsertIsStable(e, s[1..], rank);
      OfRankCons(s[0], Insert(e, s[1..]), rank);
    } else {
      OfRankCons(e, s, rank);
    }
  }

  lemma {:induction false} SortIsDescending(s: seq<Ranked>)
    ensures Descending(SortByRank(s))
  {
    if s != [] {
      SortIsDescending(s[1..]);
      InsertSorts(s[0], SortByRank(s[1..]));
    }
  }

  /** The sort keeps the entries of each rank in the order in which they came. */
  lemma {:induction false} SortIsStable(s: seq<Ranked>, rank: int)
    ensures OfRank(SortByRank(s), rank) == OfRank(s, rank)
  {
    if s != [] {
      SortIsStable(s[1..], rank);
      InsertIsStable(s[0], SortByRank(s[1..]), rank);
    }
  }

  function Permissions(s: seq<Ranked>): (r: seq<Override>)
    ensures |r| == |s|
    ensures forall i :: 0 <= i < |s| ==> r[i] == s[i].permissions
  {
    seq(|s|, i requires 0 <= i < |s| => s[i].permissions)
  }

  /** Select, sort, fold. */
  function FoldByRank(p: Bits, s: seq<Ranked>): Bits {
    Fold(p, Permissions(SortByRank(s)))
  }

  // ---------------------------------------------------------------------
  // When the result does not depend on the iteration order

  /** Two entries of equal rank disagree on `b`, and no entry that is applied
      later mentions it. */
  ghost predicate TopConflict(s: seq<Ranked>, b: Bit) {
    exists e, f :: Dispute(s, e, f, b)
  }

  ghost predicate Undisputed(s: seq<Ranked>) {
    forall b: Bit :: !TopConflict(s, b)
  }

  ghost predicate Dispute(s: seq<Ranked>, e: Ranked, f: Ranked, b: Bit) {
    && e in s && f in s && e.rank == f.rank
    && Mentions(e.permissions, b) && Mentions(f.permissions, b)
    && b in e.permissions.deny && b !in f.permissions.deny
    && (forall g <- s :: Mentions(g.permissions, b) ==> e.rank <= g.rank)
  }

  ghost predicate OrderIndependent(s: seq<Ranked>) {
    forall t: seq<Ranked>, p: Bits :: multiset(t) == multiset(s) ==> FoldByRank(p, t) == FoldByRank(p, s)
  }

  lemma SortKeepsMembers(s: seq<Ranked>, g: Ranked)
    ensures g in s <==> g in SortByRank(s)
  {
    SortPermutes(s);
    assert g in multiset(s) <==> g in multiset(SortByRank(s));
  }

  /** The entry that decides bit `b` after sorting. */
  lemma Decider(p: Bits, s: seq<Ranked>, b: Bit) returns (found: bool, e: Ranked)
    ensures !found ==> (forall g <- s :: !Mentions(g.permissions, b)) && (b in FoldByRank(p, s) <==> b in p)
    ensures found ==>
              && e in s && Mentions(e.permissions, b)
              && (forall g <- s :: Mentions(g.permissions, b) ==> e.rank <= g.rank)
              && (b in FoldByRank(p, s) <==> b !in e.permissions.deny)
  {
    var sorted := SortByRank(s);
    var r := LastMention(Permissions(sorted), b);
    LastMentionDecides(p, Permissions(sorted), b);
    found := r >= 0;
    e := if found then sorted[r] else Ranked(0, NO_OVERRIDE);
    forall g | g in s && Mentions(g.permissions, b)
      ensures found && e.rank <= g.rank
    {
      SortKeepsMembers(s, g);
      LastIsLowest(s, g, b);
    }
    if found {
      SortKeepsMembers(s, e);
    }
  }

  lemma LastIsLowest(s: seq<Ranked>, g: Ranked, b: Bit)
    requires g in SortByRank(s) && Mentions(g.permissions, b)
    ensures var r := LastMention(Permissions(SortByRank(s)), b);
            r >= 0 && SortByRank(s)[r].rank <= g.rank
  {
    SortIsDescending(s);
    var sorted := SortByRank(s);
    var os := Permissions(sorted);
    var k :| 0 <= k < |sorted| && sorted[k] == g;
    assert Mentions(os[k], b);
    assert k <= LastMention(os, b);
  }

  lemma NoConflictSameResult(p: Bits, s: seq<Ranked>, t: seq<Ranked>)
    requires multiset(s) == multiset(t)
    requires Undisputed(s)
    ensures FoldByRank(p, s) == FoldByRank(p, t)
  {
    forall b: Bit
      ensures b in FoldByRank(p, s) <==> b in FoldByRank(p, t)
    {
      var found, e := Decider(p, s, b);
      var found', f := Decider(p, t, b);
      assert forall g :: g in s <==> g in multiset(s);
      assert forall g :: g in t <==> g in multiset(t);
      assert !TopConflict(s, b);
      if found && found' {
        assert !Dispute(s, e, f, b) && !Dispute(s, f, e, b);
      }
    }
  }

  lemma {:induction false} InsertKeepsLast(x: Ranked, pre: seq<Ranked>, e: Ranked, post: seq<Ranked>)
    returns (pre': seq<Ranked>, post': seq<Ranked>)
    requires forall g <- post :: g.rank < e.rank
    ensures Insert(x, pre + ([e] + post)) == pre' + ([e] + post')
    ensures forall g <- post' :: g.rank < e.rank
  {
    var s := pre + ([e] + post);
    if x.rank >= s[0].rank {
      pre', post' := [x] + pre, post;
      assert [x] + s == pre' + ([e] + post');
    } else if pre == [] {
      assert s[1..] == post;
      pre', post' := [], Insert(x, post);
      forall g | g in post'
        ensures g.rank < e.rank
      {
        InsertMembers(x, post, g);
      }
    } else {
      assert s[1..] == pre[1..] + ([e] + post);
      var mid;
      mid, post' := InsertKeepsLast(x, pre[1..], e, post);
      pre' := [s[0]] + mid;
      assert [s[0]] + (mid + ([e] + post')) == pre' + ([e] + post');
    }
  }

  /** An entry that comes last in iteration order ends up after every entry of
      its own rank. */
  lemma {:induction false} LastStaysLast(s: seq<Ranked>, e: Ranked) returns (pre: seq<Ranked>, post: seq<Ranked>)
    ensures SortByRank(s + [e]) == pre + ([e] + post)
    ensures forall g <- post :: g.rank < e.rank
  {
    if s == [] {
      pre, post := [], [];
      assert s + [e] == [e];
      assert Insert(e, []) == [e];
      assert SortByRank([e][1..]) == [];
    } else {
      pre, post := LastStaysLast(s[1..], e);
      assert (s + [e])[1..] == s[1..] + [e];
      pre, post := InsertKeepsLast(s[0], pre, e, post);
    }
  }

  /** Any entry can be moved to the end of the iteration. */
  lemma MoveToEnd(s: seq<Ranked>, e: Ranked) returns (t: seq<Ranked>)
    requires e in s
    ensures multiset(t + [e]) == multiset(s)
  {
    var k :| 0 <= k < |s| && s[k] == e;
    t := s[..k] + s[k + 1..];
    assert s == s[..k] + [e] + s[k + 1..];
  }

  /** Moved to the end, an entry of the deciding rank decides its bit. */
  lemma LastTopDecides(p: Bits, t: seq<Ranked>, e: Ranked, b: Bit)
    requires Mentions(e.permissions, b)
    requires forall g <- t :: Mentions(g.permissions, b) ==> e.rank <= g.rank
    ensures b in FoldByRank(p, t + [e]) <==> b !in e.permissions.deny
  {
    var pre, post := LastStaysLast(t, e);
    var sorted := SortByRank(t + [e]);
    var os := Permissions(sorted);
    LastMentionDecides(p, os, b);
    assert sorted[|pre|] == e;
    forall k | |pre| < k < |os|
      ensures !Mentions(os[k], b)
    {
      assert sorted[k] == post[k - |pre| - 1];
      SortKeepsMembers(t + [e], sorted[k]);
    }
    assert Mentions(os[|pre|], b);
  }

  lemma DisputedEntryDecides(s: seq<Ranked>, e: Ranked, b: Bit) returns (t: seq<Ranked>)
    requires e in s && Mentions(e.permissions, b)
    requires forall g <- s :: Mentions(g.permissions, b) ==> e.rank <= g.rank
    ensures multiset(t) == multiset(s)
    ensures b in FoldByRank({}, t) <==> b !in e.permissions.deny
  {
    var init := MoveToEnd(s, e);
    t := init + [e];
    forall g | g in init
      ensures g in s
    {
      assert g in multiset(t);
    }
    LastTopDecides({}, init, e, b);
  }

  lemma ConflictSplits(s: seq<Ranked>, b: Bit)
    requires TopConflict(s, b)
    ensures !OrderIndependent(s)
  {
    var e, f :| Dispute(s, e, f, b);
    var t := DisputedEntryDecides(s, e, b);
    var u := DisputedEntryDecides(s, f, b);
    assert FoldByRank({}, t) != FoldByRank({}, u);
  }

  /** Hash map iteration order is invisible exactly when no bit is disputed by
      two entries of the deciding rank. */
  lemma OrderIndependentExactly(s: seq<Ranked>)
    ensures OrderIndependent(s) <==> Undisputed(s)
  {
    if Undisputed(s) {
      forall t: seq<Ranked>, p: Bits | multiset(t) == multiset(s)
        ensures FoldByRank(p, t) == FoldByRank(p, s)
      {
        NoConflictSameResult(p, s, t);
      }
    } else {
      var b: Bit :| TopConflict(s, b);
      ConflictSplits(s, b);
    }
  }

  ghost predicate DistinctRanks(s: seq<Ranked>) {
    forall i, j :: 0 <= i < j < |s| ==> s[i].rank != s[j].rank
  }

  lemma DistinctRanksIndependent(s: seq<Ranked>)
    requires DistinctRanks(s)
    ensures OrderIndependent(s)
  {
    OrderIndependentExactly(s);
  }

  // ---------------------------------------------------------------------
  // Selection from the hash maps

  /** The ranked overrides a member holds, in the iteration order `order`. */
  function Held(order: seq<Id>, entries: map<Id, Ranked>, held: seq<Id>): seq<Ranked> {
    if order == [] then []
    else (if order[0] in entries && order[0] in held then [entries[order[0]]] else []) + Held(order[1..], entries, held)
  }

  function ServerEntries(roles: map<Id, Role>): map<Id, Ranked> {
    map id <- roles :: Ranked(roles[id].rank, roles[id].permissions)
  }

  /** A channel's role overrides, ranked by the server's roles; roles that the
      server does not know are skipped. */
  function ChannelEntries(overrides: map<Id, Override>, roles: map<Id, Role>): map<Id, Ranked> {
    map id <- overrides | id in roles :: Ranked(roles[id].rank, overrides[id])
  }

  lemma {:induction false} HeldAppend(s: seq<Id>, t: seq<Id>, entries: map<Id, Ranked>, held: seq<Id>)
    ensures Held(s + t, entries, held) == Held(s, entries, held) + Held(t, entries, held)
  {
    if s == [] {
      assert s + t == t;
    } else {
      assert (s + t)[1..] == s[1..] + t;
      HeldAppend(s[1..], t, entries, held);
    }
  }

  /** Two iteration orders of a map select the same entries, counted. */
  lemma {:induction false} HeldPermutes(s: seq<Id>, t: seq<Id>, entries: map<Id, Ranked>, held: seq<Id>)
    requires multiset(s) == multiset(t)
    ensures multiset(Held(s, entries, held)) == multiset(Held(t, entries, held))
  {
    if s == [] {
      assert |t| == |multiset(t)| == |multiset(s)| == 0;
    } else {
      var a, b := Remove(s, t);
      HeldPermutes(s[1..], a + b, entries, held);
      HeldAppend([s[0]], s[1..], entries, held);
      HeldAppend(a, [s[0]] + b, entries, held);
      HeldAppend([s[0]], b, entries, held);
      HeldAppend(a, b, entries, held);
      assert s == [s[0]] + s[1..];
    }
  }

  /** `t` split around an occurrence of the first element of `s`. */
  lemma Remove(s: seq<Id>, t: seq<Id>) returns (a: seq<Id>, b: seq<Id>)
    requires s != [] && multiset(s) == multiset(t)
    ensures t == a + ([s[0]] + b)
    ensures multiset(s[1..]) == multiset(a + b)
  {
    assert s[0] in multiset(t);
    var k :| 0 <= k < |t| && t[k] == s[0];
    a, b := t[..k], t[k + 1..];
    assert t == a + ([s[0]] + b);
    assert s == [s[0]] + s[1..];
    assert multiset(s[1..]) == multiset(s) - multiset{s[0]};
    assert multiset(a + b) == multiset(t) - multiset{s[0]};
  }

  /** `order` lists every key of a map once. */
  ghost predicate Enumerates<V>(order: seq<Id>, m: map<Id, V>) {
    && (forall i, j :: 0 <= i < j < |order| ==> order[i] != order[j])
    && (forall id :: id in order <==> id in m)
  }

  lemma EnumerationsPermute<V>(s: seq<Id>, t: seq<Id>, m: map<Id, V>)
    requires Enumerates(s, m) && Enumerates(t, m)
    ensures multiset(s) == multiset(t)
  {
    forall id
      ensures multiset(s)[id] == multiset(t)[id]
    {
      OnceEach(s, id);
      OnceEach(t, id);
    }
  }

  lemma {:induction false} OnceEach(s: seq<Id>, id: Id)
    requires forall i, j :: 0 <= i < j < |s| ==> s[i] != s[j]
    ensures multiset(s)[id] == if id in s then 1 else 0
  {
    if s != [] {
      OnceEach(s[1..], id);
      assert s == [s[0]] + s[1..];
    }
  }

  /** `order` lists every key of a map, and no ID twice. */
  ghost predicate Lists<V>(order: seq<Id>, m: map<Id, V>) {
    && (forall i, j :: 0 <= i < j < |order| ==> order[i] != order[j])
    && (forall id <- m :: id in order)
  }

  /** The keys of a map in the order of a list. */
  function Only<V>(order: seq<Id>, m: map<Id, V>): (r: seq<Id>)
    ensures forall id :: id in r <==> id in order && id in m
  {
    if order == [] then []
    else if order[0] in m then [order[0]] + Only(order[1..], m)
    else Only(order[1..], m)
  }

  lemma {:induction false} OnlyDistinct<V>(order: seq<Id>, m: map<Id, V>)
    requires forall i, j :: 0 <= i < j < |order| ==> order[i] != order[j]
    ensures forall i, j :: 0 <= i < j < |Only(order, m)| ==> Only(order, m)[i] != Only(order, m)[j]
  {
    if order != [] {
      var rest := Only(order[1..], m);
      OnlyDistinct(order[1..], m);
      assert forall i :: 0 <= i < |rest| ==> rest[i] in rest && rest[i] in order[1..];
    }
  }

  lemma {:induction false} HeldOnly<V>(order: seq<Id>, m: map<Id, V>, entries: map<Id, Ranked>, held: seq<Id>)
    requires entries.Keys <= m.Keys
    ensures Held(Only(order, m), entries, held) == Held(order, entries, held)
  {
    if order != [] {
      HeldOnly(order[1..], m, entries, held);
      if order[0] in m {
        assert Only(order, m)[1..] == Only(order[1..], m);
      }
    }
  }

  /** For a member whose held entries have no disputed bit, folding over any two
      iteration orders of the same map gives the same value. */
  lemma IterationOrderInvisible<V>(
    p: Bits, s: seq<Id>, t: seq<Id>, m: map<Id, V>, entries: map<Id, Ranked>, held: seq<Id>)
    requires Lists(s, m) && Lists(t, m) && entries.Keys <= m.Keys
    requires Undisputed(Held(s, entries, held))
    ensures FoldByRank(p, Held(s, entries, held)) == FoldByRank(p, Held(t, entries, held))
  {
    OnlyDistinct(s, m);
    OnlyDistinct(t, m);
    EnumerationsPermute(Only(s, m), Only(t, m), m);
    HeldPermutes(Only(s, m), Only(t, m), entries, held);
    HeldOnly(s, m, entries, held);
    HeldOnly(t, m, entries, held);
    NoConflictSameResult(p, Held(s, entries, held), Held(t, entries, held));
  }

  /** Entries that the member does not hold do not matter. */
  lemma {:induction false} OnlyHeldMatter(
    order: seq<Id>, entries: map<Id, Ranked>, entries': map<Id, Ranked>, held: seq<Id>)
    requires forall id <- held :: id in entries <==> id in entries'
    requires forall id <- held :: id in entries ==> entries[id] == entries'[id]
    ensures Held(order, entries, held) == Held(order, entries', held)
  {
    if order != [] {
      OnlyHeldMatter(order[1..], entries, entries', held);
    }
  }
}
