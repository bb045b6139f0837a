/** Scope strings: splitting at white space, joining with spaces, and the check
    against an application's allowed list. */
module Scopes {
  import opened Entities

  /** Unicode white space. */
  predicate IsSpace(c: char) {
    || '\U{0009}' <= c <= '\U{000D}' || c == ' ' || c == '\U{0085}' || c == '\U{00A0}' || c == '\U{1680}'
    || '\U{2000}' <= c <= '\U{200A}' || c == '\U{2028}' || c == '\U{2029}' || c == '\U{202F}'
    || c == '\U{205F}' || c == '\U{3000}'
  }

  ghost predicate IsWord(w: string) {
    w != "" && forall c <- w :: !IsSpace(c)
  }

  /** The length of the run of non-space characters at the front. */
  function WordLength(s: string): (n: nat)
    ensures n <= |s|
    ensures forall i :: 0 <= i < n ==> !IsSpace(s[i])
    ensures n < |s| ==> IsSpace(s[n])
  {
    if s == "" || IsSpace(s[0]) then 0 else 1 + WordLength(s[1..])
  }

  /** `split_whitespace`. */
  function Split(s: string): (ws: seq<string>)
    ensures forall w <- ws :: IsWord(w)
  {
    if s == "" then []
    else if IsSpace(s[0]) then Split(s[1..])
    else
      var n := WordLength(s);
      [s[..n]] + Split(s[n..])
  }

  /** `join(" ")`. */
  function Join(ws: seq<string>): string {
    if ws == [] then ""
    else if |ws| == 1 then ws[0]
    else ws[0] + " " + Join(ws[1..])
  }

  lemma {:induction false} WordLengthAt(w: string, rest: string)
    requires forall c <- w :: !IsSpace(c)
    requires rest == "" || IsSpace(rest[0])
    ensures WordLength(w + rest) == |w|
  {
    if w == "" {
      assert w + rest == rest;
    } else {
      assert (w + rest)[1..] == w[1..] + rest;
      WordLengthAt(w[1..], rest);
    }
  }

  /** Joining words and splitting the result gives the words back. */
  lemma {:induction false} SplitJoin(ws: seq<string>)
    requires forall w <- ws :: IsWord(w)
    ensures Split(Join(ws)) == ws
  {
    if ws != [] {
      var w := ws[0];
      var rest := if |ws| == 1 then "" else " " + Join(ws[1..]);
      assert IsWord(w);
      assert Join(ws) == w + rest;
      WordLengthAt(w, rest);
      assert (w + rest)[..|w|] == w && (w + rest)[|w|..] == rest;
      SplitJoin(ws[1..]);
      if |ws| > 1 {
        assert rest[1..] == Join(ws[1..]);
      }
      assert Split(rest) == ws[1..];
    }
  }

  lemma WordLengthWithin(w: string, c: char, rest: string)
    requires IsSpace(c)
    ensures WordLength(w + [c] + rest) == WordLength(w)
    decreases w
  {
    if w == "" || IsSpace(w[0]) {
      assert w != "" ==> (w + [c] + rest)[0] == w[0];
    } else {
      assert (w + [c] + rest)[1..] == w[1..] + [c] + rest;
      WordLengthWithin(w[1..], c, rest);
    }
  }

  /** Splitting at any white space: what is left and right of one space is split on its own.
      A string without white space is its one word. */
  lemma {:induction false} SplitAtSpace(a: string, c: char, b: string)
    requires IsSpace(c)
    ensures Split(a + [c] + b) == Split(a) + Split(b)
    decreases |a|
  {
    if a == "" {
      SkipSpace(a + [c] + b, b);
    } else if IsSpace(a[0]) {
      SkipSpace(a + [c] + b, a[1..] + [c] + b);
      SplitAtSpace(a[1..], c, b);
    } else {
      WordLengthWithin(a, c, b);
      var n := WordLength(a);
      FirstWord(a + [c] + b, a[..n], a[n..] + [c] + b);
      SplitAtSpace(a[n..], c, b);
      Regroup(a[..n], Split(a[n..]), Split(b));
    }
  }

  lemma SkipSpace(s: string, rest: string)
    requires s != "" && IsSpace(s[0]) && s == [s[0]] + rest
    ensures Split(s) == Split(rest)
  {
    assert s[1..] == rest;
  }

  lemma FirstWord(s: string, w: string, rest: string)
    requires s != "" && !IsSpace(s[0]) && s == w + rest && |w| == WordLength(s)
    ensures Split(s) == [w] + Split(rest)
  {
    assert s[..|w|] == w && s[|w|..] == rest;
  }

  lemma Regroup(w: string, us: seq<string>, vs: seq<string>)
    ensures [w] + (us + vs) == ([w] + us) + vs
  {
  }

  lemma SplitWord(w: string)
    requires IsWord(w)
    ensures Split(w) == [w]
  {
    assert w + "" == w;
    WordLengthAt(w, "");
    assert w[..|w|] == w && w[|w|..] == "";
  }

  const SUPPORTED := ["identify", "servers", "server_members", "permissions"]

  /** Accepts a request exactly when it names at least one scope and each named
      scope is supported and allowed; the result lists the named scopes. */
  function ValidateScopes(requested: string, allowed: seq<string>): (r: Option<seq<string>>)
    ensures r.Some? <==> Split(requested) != [] && forall w <- Split(requested) :: w in SUPPORTED && w in allowed
    ensures r.Some? ==> r.value == Split(requested)
  {
    var scopes := Split(requested);
    if scopes == [] || exists w <- scopes :: w !in SUPPORTED || w !in allowed then None else Some(scopes)
  }

  /** What a validated request stores is read back as the same list of allowed scopes. */
  lemma StoredScopesReadBack(requested: string, allowed: seq<string>)
    requires ValidateScopes(requested, allowed).Some?
    ensures var stored := Join(ValidateScopes(requested, allowed).value);
            Split(stored) == Split(requested) && forall w <- Split(stored) :: w in allowed
  {
    SplitJoin(Split(requested));
  }
}
