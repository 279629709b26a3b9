/** Decimal rendering of integers, as strconv.Itoa and the `%d` verb of
    fmt.Sprintf produce it, together with a reader that inverts it. */
module Decimal {

  datatype Option<+T> = None | Some(value: T)

  predicate IsDigit(c: char) {
    '0' <= c <= '9'
  }

  function DigitValue(c: char): int {
    c as int - '0' as int
  }

  function DigitChar(d: nat): (c: char)
    requires d < 10
    ensures IsDigit(c) && DigitValue(c) == d
  {
    ('0' as int + d) as char
  }

  predicate AllDigits(s: string) {
    forall k :: 0 <= k < |s| ==> IsDigit(s[k])
  }

  /** Base-10 digits of `n`, most significant first, with no leading zero. */
  function NatToDecimal(n: nat): (s: string)
    ensures |s| >= 1 && AllDigits(s)
    ensures s[0] == '0' ==> s == "0"
    decreases n
  {
    if n < 10 then [DigitChar(n)] else NatToDecimal(n / 10) + [DigitChar(n % 10)]
  }

  /** The number a digit string denotes, read most significant digit first. */
  function DigitsValue(s: string): int
  {
    if s == [] then 0 else DigitsValue(s[..|s| - 1]) * 10 + DigitValue(s[|s| - 1])
  }

  lemma {:induction false} DigitsValueOfDecimal(n: nat)
    ensures DigitsValue(NatToDecimal(n)) == n
    decreases n
  {
    if n >= 10 {
      var s := NatToDecimal(n);
      assert s[..|s| - 1] == NatToDecimal(n / 10);
      DigitsValueOfDecimal(n / 10);
    }
  }

  /** strconv.Itoa: an optional minus sign followed by the digits of |i|. */
  function Itoa(i: int): (s: string)
    ensures |s| >= 1
    ensures IsDigit(s[0]) <==> i >= 0
    ensures s[0] == '-' <==> i < 0
    ensures forall k :: 0 < k < |s| ==> IsDigit(s[k])
    ensures s[0] == '0' ==> s == "0"
    ensures i < 0 ==> |s| >= 2 && s[1] != '0'
  {
    if i < 0 then "-" + NatToDecimal(-i) else NatToDecimal(i)
  }

  /** Reads an optional minus sign followed by one or more decimal digits;
      anything else is rejected. */
  function Atoi(s: string): (r: Option<int>)
    ensures r.Some? ==> |s| >= 1 && (s[0] == '-' || IsDigit(s[0]))
  {
    if |s| >= 2 && s[0] == '-' && AllDigits(s[1..]) then Some(-DigitsValue(s[1..]))
    else if |s| >= 1 && AllDigits(s) then Some(DigitsValue(s))
    else None
  }

  /** Reading back what Itoa writes gives the original number. */
  lemma AtoiItoa(i: int)
    ensures Atoi(Itoa(i)) == Some(i)
  {
    if i < 0 {
      var s := Itoa(i);
      assert s[1..] == NatToDecimal(-i);
      DigitsValueOfDecimal(-i);
    } else {
      DigitsValueOfDecimal(i);
    }
  }

  /** Distinct numbers render as distinct strings. */
  lemma ItoaInjective(a: int, b: int)
    ensures Itoa(a) == Itoa(b) ==> a == b
  {
    AtoiItoa(a);
    AtoiItoa(b);
  }
}
