/** Decimal printing and parsing of integers, as Go's strconv does it on a 64-bit platform. */
module Decimal {
  import opened Wrappers

  const MAX_INT: nat := 0x7fff_ffff_ffff_ffff

  predicate IsDigit(c: char) {
    '0' <= c <= '9'
  }

  predicate AllDigits(s: string) {
    forall i :: 0 <= i < |s| ==> IsDigit(s[i])
  }

  function DigitValue(c: char): nat
    requires IsDigit(c)
  {
    c as int - '0' as int
  }

  /** strconv.Itoa on a non-negative number: at least one digit and no leading zero. */
  function Itoa(n: nat): (s: string)
    ensures |s| > 0 && AllDigits(s)
    ensures s[0] == '0' ==> n == 0
  {
    var last := [('0' as int + n % 10) as char];
    if n < 10 then last else Itoa(n / 10) + last
  }

  function Value(s: string): nat
    requires AllDigits(s)
  {
    if s == [] then 0 else Value(s[..|s| - 1]) * 10 + DigitValue(s[|s| - 1])
  }

  /** strconv.Atoi: an optional sign, at least one digit, and a value that fits the 64-bit range. */
  function Atoi(s: string): Option<int> {
    var signed := s != "" && (s[0] == '+' || s[0] == '-');
    var digits := if signed then s[1..] else s;
    if digits == "" || !AllDigits(digits) then None
    else if signed && s[0] == '-' then
      if Value(digits) > MAX_INT + 1 then None else Some(0 - Value(digits))
    else
      if Value(digits) > MAX_INT then None else Some(Value(digits))
  }

  /** The canonical-ordinal test: parse, refuse negatives, and require the printed form back. */
  function CanonicalOrdinal(s: string): Option<nat> {
    match Atoi(s)
    case None => None
    case Some(n) => if n >= 0 && Itoa(n) == s then Some(n) else None
  }

  lemma {:induction false} ValueOfItoa(n: nat)
    ensures Value(Itoa(n)) == n
  {
    var s := Itoa(n);
    if n < 10 {
      assert s[..|s| - 1] == [];
    } else {
      ValueOfItoa(n / 10);
      assert s[..|s| - 1] == Itoa(n / 10);
    }
  }

  lemma ItoaInjective(m: nat, n: nat)
    requires Itoa(m) == Itoa(n)
    ensures m == n
  {
    ValueOfItoa(m);
    ValueOfItoa(n);
  }

  /** Signs, leading zeros, blanks and out-of-range digits are all refused; nothing else is. */
  lemma CanonicalOrdinalExact(s: string, n: nat)
    ensures CanonicalOrdinal(s) == Some(n) <==> n <= MAX_INT && s == Itoa(n)
  {
    if n <= MAX_INT && s == Itoa(n) {
      ValueOfItoa(n);
      assert IsDigit(s[0]);
    }
  }

  /** Printing never gets shorter as the number grows. */
  lemma {:induction false} ItoaLengthMonotone(m: nat, n: nat)
    requires m <= n
    ensures |Itoa(m)| <= |Itoa(n)|
  {
    if n >= 10 {
      if m >= 10 {
        ItoaLengthMonotone(m / 10, n / 10);
      }
    }
  }
}
