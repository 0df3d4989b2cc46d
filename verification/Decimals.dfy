/** Decimal notation for natural numbers: printing, and parsing as Rust's `u16::from_str` does. */
module Decimals {
  import opened Records

  predicate IsDigit(c: char) {
    '0' <= c <= '9'
  }

  function DigitValue(c: char): nat
    requires IsDigit(c)
  {
    (c as int) - ('0' as int)
  }

  function DigitChar(d: nat): (c: char)
    requires d < 10
    ensures IsDigit(c) && DigitValue(c) == d
  {
    (d + '0' as int) as char
  }

  predicate AllDigits(s: string) {
    forall c :: c in s ==> IsDigit(c)
  }

  function DecimalValue(s: string): nat
    requires AllDigits(s)
  {
    if s == [] then 0 else 10 * DecimalValue(s[..|s| - 1]) + DigitValue(s[|s| - 1])
  }

  function Decimal(n: nat): (s: string)
    ensures s != [] && AllDigits(s)
  {
    if n < 10 then [DigitChar(n)] else Decimal(n / 10) + [DigitChar(n % 10)]
  }

  lemma {:induction false} DecimalRoundTrip(n: nat)
    ensures DecimalValue(Decimal(n)) == n
  {
    if n < 10 {
      assert Decimal(n)[..0] == [];
    } else {
      DecimalRoundTrip(n / 10);
      var s := Decimal(n);
      assert s[..|s| - 1] == Decimal(n / 10);
    }
  }

  const U16_MAX: nat := 65535

  /** An optional plus sign, at least one digit, and a value that fits. */
  predicate U16Literal(s: string) {
    var digits := if s != [] && s[0] == '+' then s[1..] else s;
    digits != [] && AllDigits(digits) && DecimalValue(digits) <= U16_MAX
  }

  /**
   * Left-to-right accumulation with overflow checks at every digit, as the standard
   * library parses.  `acc` is the value read so far.
   */
  function Accumulate(s: string, acc: nat): Option<nat> {
    if s == [] then Some(acc)
    else if !IsDigit(s[0]) then None
    else if 10 * acc + DigitValue(s[0]) > U16_MAX then None
    else Accumulate(s[1..], 10 * acc + DigitValue(s[0]))
  }

  function ParseU16(s: string): Option<nat> {
    var digits := if s != [] && s[0] == '+' then s[1..] else s;
    if digits == [] then None else Accumulate(digits, 0)
  }

  function Power10(k: nat): (p: nat)
    ensures p >= 1
  {
    if k == 0 then 1 else 10 * Power10(k - 1)
  }

  lemma {:induction false} DecimalValueFromFront(s: string)
    requires s != [] && AllDigits(s)
    ensures DecimalValue(s) == DigitValue(s[0]) * Power10(|s| - 1) + DecimalValue(s[1..])
  {
    var n := |s| - 1;
    if n > 0 {
      var front := s[..n];
      DecimalValueFromFront(front);
      assert front[1..] == s[1..][..n - 1];
      assert s[1..][n - 1] == s[n];
      var p := Power10(n - 1);
      var d := DigitValue(s[0]);
      assert Power10(n) == 10 * p;
      assert 10 * (d * p) == d * (10 * p);
    } else {
      assert s[..0] == [] && s[1..] == [];
    }
  }

  /** The digit-by-digit overflow check rejects exactly the values that do not fit. */
  lemma {:induction false} AccumulateMeaning(s: string, acc: nat)
    requires acc <= U16_MAX
    ensures Accumulate(s, acc).Some? <==> AllDigits(s) && acc * Power10(|s|) + DecimalValue(s) <= U16_MAX
    ensures Accumulate(s, acc).Some? ==> Accumulate(s, acc).value == acc * Power10(|s|) + DecimalValue(s)
  {
    if s != [] {
      assert s == [s[0]] + s[1..];
      if IsDigit(s[0]) {
        var next := 10 * acc + DigitValue(s[0]);
        var p := Power10(|s| - 1);
        assert AllDigits(s) <==> AllDigits(s[1..]);
        assert next * p == acc * (10 * p) + DigitValue(s[0]) * p;
        if AllDigits(s) {
          DecimalValueFromFront(s);
        }
        if next <= U16_MAX {
          AccumulateMeaning(s[1..], next);
        } else {
          assert next * p >= next;
        }
      }
    }
  }

  /** Parsing accepts exactly the literals and returns their value. */
  lemma ParseU16Meaning(s: string)
    ensures ParseU16(s).Some? <==> U16Literal(s)
    ensures ParseU16(s).Some? ==>
              ParseU16(s).value == DecimalValue(if s[0] == '+' then s[1..] else s)
  {
    var digits := if s != [] && s[0] == '+' then s[1..] else s;
    AccumulateMeaning(digits, 0);
  }

  /** Printing a 16-bit number and parsing it back gives the number. */
  lemma PrintParse(n: nat)
    requires n <= U16_MAX
    ensures ParseU16(Decimal(n)) == Some(n)
  {
    var s := Decimal(n);
    assert s[0] in s;
    DecimalRoundTrip(n);
    ParseU16Meaning(s);
  }
}
