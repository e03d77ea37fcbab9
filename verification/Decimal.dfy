/**
 Decimal numbers as the crate writes them (`to_string`) and reads them (`parse` of an unsigned
 type: an optional plus sign, then digits only, no overflow).
 */
module Decimal {
  import opened Wrappers
  import opened Protocol

  const U16_MAX: nat := 0xFFFF
  const U32_MAX: nat := 0xFFFF_FFFF
  const U64_MAX: nat := 0xFFFF_FFFF_FFFF_FFFF

  const PLUS: byte := 43

  predicate IsDigit(b: byte) {
    48 <= b <= 57
  }

  function Value(digits: bytes): nat
    requires forall b <- digits :: IsDigit(b)
  {
    if digits == [] then 0
    else
      assert IsDigit(digits[|digits| - 1]);
      Value(digits[..|digits| - 1]) * 10 + (digits[|digits| - 1] as int - 48)
  }

  function Format(n: nat): (s: bytes)
    ensures s != [] && forall b <- s :: IsDigit(b)
    ensures Value(s) == n
  {
    if n < 10 then [(48 + n) as byte]
    else
      var s := Format(n / 10) + [(48 + n % 10) as byte];
      assert s[..|s| - 1] == Format(n / 10);
      s
  }

  function Parse(max: nat, s: bytes): Option<nat> {
    var digits := if s != [] && s[0] == PLUS then s[1..] else s;
    if digits == [] || exists b <- digits :: !IsDigit(b) then None
    else if Value(digits) > max then None
    else Some(Value(digits))
  }

  lemma ParseFormat(max: nat, n: nat)
    ensures Parse(max, Format(n)) == if n <= max then Some(n) else None
  {
    assert IsDigit(Format(n)[0]);
  }

  /** No leading zero. */
  lemma FormatIsCanonical(n: nat)
    ensures Format(n)[0] == 48 <==> n == 0
    ensures n == 0 ==> Format(n) == [48]
  {
  }

  lemma FormatTellsApart(m: nat, n: nat)
    ensures Format(m) == Format(n) <==> m == n
  {
    assert Value(Format(m)) == m && Value(Format(n)) == n;
  }

  function Zeros(k: nat): (z: bytes)
    ensures |z| == k && forall b <- z :: b == 48
  {
    seq(k, _ => 48)
  }

  /** A spelling of n: perhaps a plus sign, then leading zeros, then the canonical digits. */
  function Spelling(plus: bool, zeros: nat, n: nat): bytes {
    (if plus then [PLUS] else []) + (Zeros(zeros) + Format(n))
  }

  ghost predicate Spells(s: bytes, n: nat) {
    exists plus, zeros :: s == Spelling(plus, zeros, n)
  }

  lemma ZerosFirst(k: nat, n: nat)
    ensures var s := Zeros(k) + Format(n); (forall b <- s :: IsDigit(b)) && Value(s) == n
    decreases k + n
  {
    var s := Zeros(k) + Format(n);
    var f := Format(n);
    assert s[|s| - 1] == f[|f| - 1];
    assert s[..|s| - 1] == Zeros(k) + f[..|f| - 1];
    if n >= 10 {
      ZerosFirst(k, n / 10);
    } else if k > 0 {
      assert s[..|s| - 1] == Zeros(k - 1) + Format(0);
      ZerosFirst(k - 1, 0);
    } else {
      assert s[..|s| - 1] == [];
    }
  }

  /** Every string of digits is the canonical spelling of its value after some zeros. */
  lemma {:induction false} ZerosOf(digits: bytes) returns (k: nat)
    requires digits != [] && forall b <- digits :: IsDigit(b)
    ensures digits == Zeros(k) + Format(Value(digits))
  {
    hide Format, Value, Zeros;
    var n := |digits| - 1;
    var front, last := digits[..n], digits[n];
    assert digits == front + [last] && IsDigit(last);
    if n == 0 {
      assert digits == [last];
      OneDigit(last);
      k := 0;
    } else {
      var j := ZerosOf(front);
      k := if Value(front) == 0 then j + 1 else j;
      NextDigit(j, Value(front), last);
      ValueSnoc(front, last);
    }
  }

  lemma OneDigit(d: byte)
    requires IsDigit(d)
    ensures (forall b <- [d] :: IsDigit(b)) && [d] == Zeros(0) + Format(Value([d]))
  {
    var c: nat := d as int - 48;
    assert [d][..0] == [];
    assert Value([d]) == c && Format(c) == [d];
    assert Zeros(0) == [];
  }

  lemma ValueSnoc(front: bytes, last: byte)
    requires (forall b <- front :: IsDigit(b)) && IsDigit(last)
    ensures (forall b <- front + [last] :: IsDigit(b))
    ensures Value(front + [last]) == 10 * Value(front) + (last as int - 48)
  {
    assert (front + [last])[..|front|] == front;
  }

  lemma NextDigit(zeros: nat, v: nat, last: byte)
    requires IsDigit(last)
    ensures (Zeros(zeros) + Format(v)) + [last]
         == Zeros(if v == 0 then zeros + 1 else zeros) + Format(10 * v + (last as int - 48))
  {
    var c: nat := last as int - 48;
    if v == 0 {
      assert Format(0) == [48] && Format(c) == [last];
      assert Zeros(zeros) + [48] == Zeros(zeros + 1);
    } else {
      assert (10 * v + c) / 10 == v && (10 * v + c) % 10 == c;
      assert Format(10 * v + c) == Format(v) + [last];
      assert (Zeros(zeros) + Format(v)) + [last] == Zeros(zeros) + (Format(v) + [last]);
    }
  }

  lemma SpellingReads(max: nat, plus: bool, zeros: nat, n: nat)
    ensures Parse(max, Spelling(plus, zeros, n)) == if n <= max then Some(n) else None
  {
    var s, digits := Spelling(plus, zeros, n), Zeros(zeros) + Format(n);
    ZerosFirst(zeros, n);
    hide Format, Zeros, Value;
    assert digits != [] && IsDigit(digits[0]);
    if plus {
      assert s[0] == PLUS && s[1..] == digits;
    } else {
      assert s == digits;
    }
  }

  lemma ReadsSpelling(max: nat, s: bytes, n: nat)
    requires Parse(max, s) == Some(n)
    ensures n <= max && Spells(s, n)
  {
    hide Format, Zeros, Value;
    var plus := s != [] && s[0] == PLUS;
    var digits := if plus then s[1..] else s;
    var k := ZerosOf(digits);
    assert s == (if plus then [PLUS] else []) + digits;
    assert s == Spelling(plus, k, n);
  }

  /** What is read as n is what spells n, when n is not too wide; everything else is refused. */
  lemma ParsesIff(max: nat, s: bytes, n: nat)
    ensures Parse(max, s) == Some(n) <==> n <= max && Spells(s, n)
  {
    hide Parse, Spelling;
    if Parse(max, s) == Some(n) {
      ReadsSpelling(max, s, n);
    }
    if plus, zeros :| s == Spelling(plus, zeros, n) {
      SpellingReads(max, plus, zeros, n);
    }
  }
}
