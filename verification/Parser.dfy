/** The message token filter: a buffered iterator that suppresses closed code blocks and
    escaped tokens. The lexer is left out; the model starts from its tokens. */
module Parser {
  import opened Entities

  datatype Token =
    | Escape
    | CodeblockMarker(ticks: nat)
    | UserMention(id: Id)
    | RoleMention(id: Id)
    | ChannelMention(id: Id)
    | Emoji(id: Id)
    | MentionEveryone
    | MentionOnline

  // ---------------------------------------------------------------------
  // What the filter yields

  /** The first place of a token, or the length if there is none. */
  function Find(ts: seq<Token>, t: Token): (i: nat)
    ensures i <= |ts|
  {
    if ts == [] || ts[0] == t then 0 else 1 + Find(ts[1..], t)
  }

  lemma {:induction false} FindFirst(ts: seq<Token>, t: Token)
    ensures t !in ts[..Find(ts, t)]
    ensures Find(ts, t) < |ts| ==> ts[Find(ts, t)] == t
    ensures Find(ts, t) < |ts| <==> t in ts
  {
    if ts != [] && ts[0] != t {
      FindFirst(ts[1..], t);
      assert ts[..Find(ts, t)] == [ts[0]] + ts[1..][..Find(ts[1..], t)];
      assert ts == [ts[0]] + ts[1..];
    }
  }

  lemma {:induction false} FindAt(ts: seq<Token>, t: Token, n: nat)
    requires n < |ts| && ts[n] == t && t !in ts[..n]
    ensures Find(ts, t) == n
  {
    if n > 0 {
      assert ts[0] in ts[..n];
      assert ts[1..][..n - 1] == ts[..n][1..];
      FindAt(ts[1..], t, n - 1);
    }
  }

  /** The marker at the front has a later equal marker. */
  predicate Closed(ts: seq<Token>)
    requires ts != []
  {
    ts[0].CodeblockMarker? && Find(ts[1..], ts[0]) < |ts| - 1
  }

  predicate Unclosed(ts: seq<Token>)
    requires ts != []
  {
    ts[0].CodeblockMarker? && !Closed(ts)
  }

  /** What the front of the list yields. */
  function Head(ts: seq<Token>): seq<Token>
    requires ts != []
  {
    if Unclosed(ts) then ts else if Closed(ts) then [ts[0], ts[0]] else [ts[0]]
  }

  /** How many tokens that takes. */
  function Length(ts: seq<Token>): (n: nat)
    requires ts != []
    ensures 1 <= n <= |ts|
  {
    if Unclosed(ts) then |ts|
    else if Closed(ts) then Find(ts[1..], ts[0]) + 2
    else if ts[0].Escape? && |ts| > 1 then 2
    else 1
  }

  /** An escape drops the next token, a marker with a later equal marker becomes an empty
      pair, an unclosed marker passes all the rest through as it is. */
  function Filter(ts: seq<Token>): seq<Token> {
    if ts == [] then [] else Head(ts) + Filter(ts[Length(ts)..])
  }

  /** The places the output comes from. */
  function Places(ts: seq<Token>): seq<nat>
    requires ts != []
  {
    if Unclosed(ts) then seq(|ts|, j => j) else if Closed(ts) then [0, Length(ts) - 1] else [0]
  }

  function Shifted(places: seq<nat>, offset: nat): (r: seq<nat>)
    ensures |r| == |places| && forall j :: 0 <= j < |r| ==> r[j] == places[j] + offset
  {
    seq(|places|, j requires 0 <= j < |places| => places[j] + offset)
  }

  function Kept(ts: seq<Token>): seq<nat> {
    if ts == [] then [] else Places(ts) + Shifted(Kept(ts[Length(ts)..]), Length(ts))
  }

  ghost predicate PicksOut(all: seq<Token>, places: seq<nat>, out: seq<Token>) {
    && |places| == |out|
    && (forall j :: 0 <= j < |places| ==> places[j] < |all| && all[places[j]] == out[j])
    && (forall i, j :: 0 <= i < j < |places| ==> places[i] < places[j])
  }

  lemma PlacesPick(ts: seq<Token>)
    requires ts != []
    ensures PicksOut(ts, Places(ts), Head(ts)) && forall p <- Places(ts) :: p < Length(ts)
  {
    if Closed(ts) {
      FindFirst(ts[1..], ts[0]);
      assert ts[Length(ts) - 1] == ts[1..][Length(ts) - 2];
    }
  }

  lemma PicksAppend(all: seq<Token>, n: nat, p: seq<nat>, s: seq<Token>, q: seq<nat>, t: seq<Token>)
    requires n <= |all| && PicksOut(all, p, s) && (forall x <- p :: x < n) && PicksOut(all[n..], q, t)
    ensures PicksOut(all, p + Shifted(q, n), s + t)
  {
    var r := p + Shifted(q, n);
    forall j | 0 <= j < |r|
      ensures r[j] < |all| && all[r[j]] == (s + t)[j]
    {
      assert j >= |p| ==> all[n..][q[j - |p|]] == all[r[j]];
    }
    forall i, j | 0 <= i < j < |r|
      ensures r[i] < r[j]
    {
      assert i < |p| ==> p[i] in p;
    }
  }

  /** The output is a subsequence of the input. */
  lemma {:induction false} OutputIsSubsequence(ts: seq<Token>)
    ensures PicksOut(ts, Kept(ts), Filter(ts))
  {
    if ts != [] {
      var n := Length(ts);
      PlacesPick(ts);
      OutputIsSubsequence(ts[n..]);
      PicksAppend(ts, n, Places(ts), Head(ts), Kept(ts[n..]), Filter(ts[n..]));
    }
  }

  lemma {:induction false} FilterShorter(ts: seq<Token>)
    ensures |Filter(ts)| <= |ts|
    ensures ts != [] ==> Filter(ts) != []
  {
    if ts != [] {
      FilterShorter(ts[Length(ts)..]);
    }
  }

  // ---------------------------------------------------------------------
  // The laws of the filter: together they fix it

  /** A token that is neither an escape nor a marker passes. */
  lemma PlainPasses(t: Token, rest: seq<Token>)
    requires !t.Escape? && !t.CodeblockMarker?
    ensures Filter([]) == [] && Filter([t] + rest) == [t] + Filter(rest)
  {
    assert ([t] + rest)[1..] == rest;
  }

  /** An escape passes and takes the next token, whatever it is, away. */
  lemma EscapeDropsNext(t: Token, rest: seq<Token>)
    ensures Filter([Escape]) == [Escape] && Filter([Escape, t] + rest) == [Escape] + Filter(rest)
  {
    assert [Escape][1..] == [];
    assert ([Escape, t] + rest)[2..] == rest;
  }

  /** A block between two equal markers is emptied, whatever it holds. */
  lemma BlockIsEmptied(ticks: nat, block: seq<Token>, rest: seq<Token>)
    requires CodeblockMarker(ticks) !in block
    ensures var m := CodeblockMarker(ticks); Filter([m] + block + [m] + rest) == [m, m] + Filter(rest)
  {
    var m := CodeblockMarker(ticks);
    var ts := [m] + block + [m] + rest;
    assert ts[1..] == block + [m] + rest;
    assert ts[1..][..|block|] == block;
    FindAt(ts[1..], m, |block|);
    assert ts[|block| + 2..] == rest;
  }

  /** A marker without a later equal one passes with all that follows, untouched. */
  lemma UnclosedPasses(ticks: nat, rest: seq<Token>)
    requires CodeblockMarker(ticks) !in rest
    ensures var m := CodeblockMarker(ticks); Filter([m] + rest) == [m] + rest
  {
    var m := CodeblockMarker(ticks);
    var ts := [m] + rest;
    assert ts[1..] == rest;
    FindFirst(rest, m);
    assert ts[|ts|..] == [];
  }

  // ---------------------------------------------------------------------
  // Filtering twice

  /** Every escape the filter acts on has at most one token after it. */
  predicate Quiet(ts: seq<Token>) {
    ts != [] ==> if ts[0].Escape? then |ts| <= 2 else Quiet(ts[Length(ts)..])
  }

  /** What the front yields is not an escape, so it is yielded again. */
  lemma HeadAgain(ts: seq<Token>, rest: seq<Token>)
    requires ts != [] && !ts[0].Escape? && (Unclosed(ts) ==> rest == [])
    ensures Filter(Head(ts) + rest) == Head(ts) + Filter(rest)
  {
    var out := Head(ts) + rest;
    if Unclosed(ts) {
      assert out == ts;
    } else {
      if Closed(ts) {
        assert out[1..][0] == ts[0];
      }
      assert Length(out) == |Head(ts)| && Head(out) == Head(ts);
      assert out[|Head(ts)|..] == rest;
    }
  }

  lemma EscapeEats(rest: seq<Token>)
    ensures Filter([Escape] + rest) == [Escape] + rest <==> rest == []
  {
    var out := [Escape] + rest;
    if rest == [] {
      assert out[1..] == [];
    } else {
      assert out[2..] == rest[1..];
      FilterShorter(rest[1..]);
    }
  }

  /** Filtering a second time changes nothing exactly when no escape the filter acts on
      is followed by more than one token. */
  lemma {:induction false} FixedPointExactly(ts: seq<Token>)
    ensures Filter(Filter(ts)) == Filter(ts) <==> Quiet(ts)
  {
    if ts != [] {
      var rest := ts[Length(ts)..];
      if ts[0].Escape? {
        FilterShorter(rest);
        EscapeEats(Filter(rest));
      } else {
        HeadAgain(ts, Filter(rest));
        FixedPointExactly(rest);
      }
    }
  }

  lemma {:induction false} EscapeFreeIsQuiet(ts: seq<Token>)
    requires Escape !in ts
    ensures Quiet(ts)
  {
    if ts != [] {
      EscapeFreeIsQuiet(ts[Length(ts)..]);
    }
  }

  /** On lists without escapes the output is a fixed point. */
  lemma EscapeFreeFixedPoint(ts: seq<Token>)
    requires Escape !in ts
    ensures Filter(Filter(ts)) == Filter(ts)
  {
    EscapeFreeIsQuiet(ts);
    FixedPointExactly(ts);
  }

  /** With escapes it need not be. */
  lemma EscapeCanEatTwice()
    ensures Filter([Escape, Escape, MentionOnline]) == [Escape, MentionOnline]
    ensures Filter([Escape, MentionOnline]) == [Escape]
  {
    assert [Escape, Escape, MentionOnline][2..] == [MentionOnline];
    assert [MentionOnline][1..] == [];
    assert [Escape, MentionOnline][2..] == [];
  }

  // ---------------------------------------------------------------------
  // The iterator

  lemma Regroup(a: seq<Token>, t: Token, b: seq<Token>, c: seq<Token>)
    ensures a + ([t] + (b + c)) == (a + [t] + b) + c
    ensures a + ([t] + c) == (a + [t]) + c
  {
  }

  lemma Pulled(before: seq<Token>, t: Token, temp: seq<Token>, inner: seq<Token>)
    requires before != [] && Head(before) == [t] + temp && inner == before[Length(before)..]
    ensures Filter(before) == [t] + (temp + Filter(inner))
  {
    var rest := Filter(inner);
    assert Filter(before) == ([t] + temp) + rest;
    Associate([t], temp, rest);
  }

  lemma Associate(a: seq<Token>, b: seq<Token>, c: seq<Token>)
    ensures (a + b) + c == a + (b + c)
  {
  }

  class MessageParserIterator {
    var inner: seq<Token>
    var temp: seq<Token>

    /** All that is still to come. */
    ghost function Rest(): seq<Token>
      reads this
    {
      temp + Filter(inner)
    }

    constructor (tokens: seq<Token>)
      ensures inner == tokens && temp == [] && Rest() == Filter(tokens)
    {
      inner, temp := tokens, [];
    }

    method Advance() returns (t: Option<Token>)
      modifies this`inner
      ensures old(inner) == [] ==> t.None? && inner == []
      ensures old(inner) != [] ==> t == Some(old(inner)[0]) && inner == old(inner)[1..]
    {
      if inner == [] {
        return None;
      }
      t := Some(inner[0]);
      inner := inner[1..];
    }

    /** Read up to the closing marker, or buffer all that is left. */
    method SkipBlock(marker: Token) returns (closed: bool)
      requires temp == [] && marker.CodeblockMarker?
      modifies this
      ensures closed <==> marker in old(inner)
      ensures closed ==> temp == [marker] && Find(old(inner), marker) < |old(inner)|
                         && inner == old(inner)[Find(old(inner), marker) + 1..]
      ensures !closed ==> temp == old(inner) && inner == []
    {
      ghost var before := inner;
      ghost var n := 0;
      while true
        invariant n <= |before| && inner == before[n..] && temp == before[..n]
        invariant marker !in before[..n]
        decreases |inner|
      {
        var next := Advance();
        if next == Some(marker) {
          FindAt(before, marker, n);
          temp := [marker];
          return true;
        } else if next.Some? {
          temp := temp + [next.value];
          n := n + 1;
        } else {
          return false;
        }
      }
    }

    /** Each call yields the next token of the filtered list. */
    method Next() returns (t: Option<Token>)
      modifies this
      ensures t.None? <==> old(Rest()) == []
      ensures t.None? ==> Rest() == []
      ensures t.Some? ==> old(Rest()) == [t.value] + Rest()
    {
      ghost var buffer, before := temp, inner;
      if temp != [] {
        t := Some(temp[0]);
        temp := temp[1..];
        Regroup([], buffer[0], temp, Filter(inner));
        assert [] + [buffer[0]] + temp == buffer;
      } else {
        t := NextPiece();
        if before != [] {
          Pulled(before, t.value, temp, inner);
        }
        assert [] + Filter(before) == Filter(before);
      }
    }

    method NextPiece() returns (t: Option<Token>)
      requires temp == []
      modifies this
      ensures old(inner) == [] ==> t.None? && temp == [] && inner == []
      ensures old(inner) != [] ==>
                && t.Some? && Head(old(inner)) == [t.value] + temp
                && inner == old(inner)[Length(old(inner))..]
    {
      ghost var before := inner;
      t := Advance();
      if t == Some(Escape) {
        var _ := Advance();
      } else if t.Some? && t.value.CodeblockMarker? {
        FindFirst(before[1..], t.value);
        var _ := SkipBlock(t.value);
      }
    }
  }

  /** Draining the iterator terminates and yields the filtered list. */
  method ParseAll(tokens: seq<Token>) returns (out: seq<Token>)
    ensures out == Filter(tokens)
  {
    var it := new MessageParserIterator(tokens);
    out := [];
    while true
      invariant fresh(it)
      invariant out + it.Rest() == Filter(tokens)
      decreases |it.Rest()|
    {
      var t := it.Next();
      if t.None? {
        return;
      }
      Regroup(out, t.value, [], it.Rest());
      out := out + [t.value];
    }
  }

  // ---------------------------------------------------------------------
  // What a message mentions

  datatype Results = Results(
    users: set<Id>, roles: set<Id>, channels: set<Id>, emojis: set<Id>, everyone: bool, online: bool)

  function Mentioned(out: seq<Token>): Results {
    Results(set t <- out | t.UserMention? :: t.id, set t <- out | t.RoleMention? :: t.id,
            set t <- out | t.ChannelMention? :: t.id, set t <- out | t.Emoji? :: t.id,
            MentionEveryone in out, MentionOnline in out)
  }

  function With(r: Results, t: Token): Results {
    match t
    case Escape => r
    case CodeblockMarker(_) => r
    case UserMention(id) => r.(users := r.users + {id})
    case RoleMention(id) => r.(roles := r.roles + {id})
    case ChannelMention(id) => r.(channels := r.channels + {id})
    case Emoji(id) => r.(emojis := r.emojis + {id})
    case MentionEveryone => r.(everyone := true)
    case MentionOnline => r.(online := true)
  }

  lemma MentionedOne(out: seq<Token>, t: Token)
    ensures Mentioned(out + [t]) == With(Mentioned(out), t)
  {
  }

  /** The mentions found are those of the filtered list, each kind on its own. */
  method ParseMessage(tokens: seq<Token>) returns (r: Results)
    ensures r == Mentioned(Filter(tokens))
    ensures forall id :: id in r.users <==> UserMention(id) in Filter(tokens)
    ensures forall id :: id in r.roles <==> RoleMention(id) in Filter(tokens)
    ensures forall id :: id in r.channels <==> ChannelMention(id) in Filter(tokens)
    ensures forall id :: id in r.emojis <==> Emoji(id) in Filter(tokens)
    ensures (r.everyone <==> MentionEveryone in Filter(tokens)) && (r.online <==> MentionOnline in Filter(tokens))
  {
    r := Results({}, {}, {}, {}, false, false);
    var it := new MessageParserIterator(tokens);
    ghost var out: seq<Token> := [];
    while true
      invariant fresh(it)
      invariant out + it.Rest() == Filter(tokens)
      invariant r == Mentioned(out)
      decreases |it.Rest()|
    {
      var t := it.Next();
      if t.None? {
        return;
      }
      MentionedOne(out, t.value);
      Regroup(out, t.value, [], it.Rest());
      r := With(r, t.value);
      out := out + [t.value];
    }
  }
}
