/** `token_matches`: a comparison that always looks at every byte. */
module Auth {

  type Byte = b: int | 0 <= b < 256

  // The bitwise operators on unsigned integers, binary digit by binary digit.

  function Xor(a: nat, b: nat): nat
    decreases a + b
  {
    if a == 0 && b == 0 then 0 else (if a % 2 == b % 2 then 0 else 1) + 2 * Xor(a / 2, b / 2)
  }

  function Or(a: nat, b: nat): nat
    decreases a + b
  {
    if a == 0 && b == 0 then 0 else (if a % 2 == 0 && b % 2 == 0 then 0 else 1) + 2 * Or(a / 2, b / 2)
  }

  lemma {:induction false} XorZero(a: nat, b: nat)
    ensures Xor(a, b) == 0 <==> a == b
    decreases a + b
  {
    if a != 0 || b != 0 {
      XorZero(a / 2, b / 2);
    }
  }

  lemma {:induction false} OrZero(a: nat, b: nat)
    ensures Or(a, b) == 0 <==> a == 0 && b == 0
    decreases a + b
  {
    if a != 0 || b != 0 {
      OrZero(a / 2, b / 2);
    }
  }

  function ByteAt(s: seq<Byte>, i: nat): Byte {
    if i < |s| then s[i] else 0
  }

  /** Agreeing lengths, and agreeing bytes so far: what a zero accumulator says. */
  predicate AgreeUpTo(provided: seq<Byte>, expected: seq<Byte>, n: nat) {
    |provided| == |expected| && forall k :: 0 <= k < n ==> ByteAt(provided, k) == ByteAt(expected, k)
  }

  method TokenMatches(provided: seq<Byte>, expected: seq<Byte>) returns (matches: bool)
    ensures matches <==> provided == expected
  {
    var diff := Xor(|provided|, |expected|);
    XorZero(|provided|, |expected|);
    var longest := if |provided| > |expected| then |provided| else |expected|;
    for index := 0 to longest
      invariant diff == 0 <==> AgreeUpTo(provided, expected, index)
    {
      var left, right := ByteAt(provided, index), ByteAt(expected, index);
      XorZero(left, right);
      OrZero(diff, Xor(left, right));
      diff := Or(diff, Xor(left, right));
    }
    matches := diff == 0;
    AgreeAll(provided, expected, longest);
  }

  lemma AgreeAll(provided: seq<Byte>, expected: seq<Byte>, n: nat)
    requires |provided| <= n && |expected| <= n
    ensures AgreeUpTo(provided, expected, n) <==> provided == expected
  {
    if AgreeUpTo(provided, expected, n) {
      assert forall k :: 0 <= k < |provided| ==>
        provided[k] == ByteAt(provided, k) && ByteAt(expected, k) == expected[k];
    }
  }
}
