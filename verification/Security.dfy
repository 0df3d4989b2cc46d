/** API key comparison without an early exit. */
module Security {
  import opened Bytes

  /** Bitwise exclusive or, on machine words of any width. */
  function Xor(a: nat, b: nat): nat {
    if a == 0 && b == 0 then 0 else (a + b) % 2 + 2 * Xor(a / 2, b / 2)
  }

  /** Bitwise or. */
  function Or(a: nat, b: nat): nat {
    if a == 0 && b == 0 then 0 else (if a % 2 == 1 || b % 2 == 1 then 1 else 0) + 2 * Or(a / 2, b / 2)
  }

  /** Exclusive or is zero exactly on equal words. */
  lemma {:induction false} XorZeroIff(a: nat, b: nat)
    ensures Xor(a, b) == 0 <==> a == b
  {
    if a != 0 || b != 0 {
      XorZeroIff(a / 2, b / 2);
      assert a == 2 * (a / 2) + a % 2 && b == 2 * (b / 2) + b % 2;
    }
  }

  /** Or never loses a set bit. */
  lemma {:induction false} OrZeroIff(a: nat, b: nat)
    ensures Or(a, b) == 0 <==> a == 0 && b == 0
  {
    if a != 0 || b != 0 {
      OrZeroIff(a / 2, b / 2);
    }
  }

  function ByteAt(bytes: seq<Byte>, index: nat): nat {
    if index < |bytes| then bytes[index] as nat else 0
  }

  function Longer(left: seq<Byte>, right: seq<Byte>): nat {
    if |left| >= |right| then |left| else |right|
  }

  /**
   * Compares every position, even after a difference: the number of rounds depends on
   * the lengths alone.  The shorter side is padded with zeros, so the lengths must be
   * compared as well.
   */
  method ConstantTimeEq(left: seq<Byte>, right: seq<Byte>) returns (equal: bool, ghost rounds: nat)
    ensures equal <==> left == right
    ensures rounds == Longer(left, right)
  {
    var diff := Xor(|left|, |right|);
    XorZeroIff(|left|, |right|);
    rounds := 0;
    for index := 0 to Longer(left, right)
      invariant rounds == index
      invariant diff == 0 <==> |left| == |right| && forall i :: 0 <= i < index ==> ByteAt(left, i) == ByteAt(right, i)
    {
      XorZeroIff(ByteAt(left, index), ByteAt(right, index));
      OrZeroIff(diff, Xor(ByteAt(left, index), ByteAt(right, index)));
      diff := Or(diff, Xor(ByteAt(left, index), ByteAt(right, index)));
      rounds := rounds + 1;
    }
    equal := diff == 0;
    if equal {
      forall i | 0 <= i < |left|
        ensures left[i] == right[i]
      {
        assert ByteAt(left, i) == ByteAt(right, i);
      }
    }
  }

  method ApiKeyAllowed(presented: seq<Byte>, configured: seq<seq<Byte>>) returns (allowed: bool)
    ensures allowed <==> presented in configured
  {
    for k := 0 to |configured|
      invariant presented !in configured[..k]
    {
      var equal, _ := ConstantTimeEq(presented, configured[k]);
      if equal {
        return true;
      }
    }
    allowed := false;
    assert configured[..|configured|] == configured;
  }
}
