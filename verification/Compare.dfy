/** The comparison of secrets that always looks at every byte. */
module Compare {
  type Byte = b: nat | b < 256
  type Bytes = seq<Byte>

  /** Exclusive or, bit by bit from the lowest. */
  function Xor(a: nat, b: nat): nat
    decreases a + b
  {
    if a == 0 && b == 0 then 0 else 2 * Xor(a / 2, b / 2) + (if a % 2 == b % 2 then 0 else 1)
  }

  /** Inclusive or, bit by bit from the lowest. */
  function Or(a: nat, b: nat): nat
    decreases a + b
  {
    if a == 0 && b == 0 then 0 else 2 * Or(a / 2, b / 2) + (if a % 2 == 1 || b % 2 == 1 then 1 else 0)
  }

  lemma {:induction false} XorZero(a: nat, b: nat)
    ensures Xor(a, b) == 0 <==> a == b
    decreases a + b
  {
    if a != 0 || b != 0 {
      XorZero(a / 2, b / 2);
    }
  }

  lemma {:induction false} OrZero(a: nat, b: nat)
    ensures Or(a, b) == 0 <==> a == 0 && b == 0
    decreases a + b
  {
    if a != 0 || b != 0 {
      OrZero(a / 2, b / 2);
    }
  }

  /** Accumulates every difference, of the lengths and of the bytes, and compares
      the result with zero: equality of byte strings. */
  method ConstantTimeEqual(left: Bytes, right: Bytes) returns (equal: bool)
    ensures equal <==> left == right
  {
    var result := Xor(|left|, |right|);
    XorZero(|left|, |right|);
    var n := if |left| < |right| then |left| else |right|;
    for i := 0 to n
      invariant result == 0 <==> |left| == |right| && left[..i] == right[..i]
    {
      XorZero(left[i], right[i]);
      OrZero(result, Xor(left[i], right[i]));
      assert left[..i + 1] == left[..i] + [left[i]] && right[..i + 1] == right[..i] + [right[i]];
      result := Or(result, Xor(left[i], right[i]));
    }
    equal := result == 0;
    assert left[..|left|] == left && right[..|right|] == right;
  }

  /** The code verifier check, for the hash `s256`. */
  method PkceMatches(s256: Bytes -> Bytes, verifier: Bytes, challenge: Bytes) returns (r: bool)
    ensures r <==> s256(verifier) == challenge
  {
    r := ConstantTimeEqual(s256(verifier), challenge);
  }
}
