/** The printf formats %d and %03u, and the reader that shows they lose nothing. */
module Decimal {

  const DIGITS := "0123456789"

  /** %u. */
  function Dec(n: nat): (s: string)
    ensures |s| > 0 && forall k :: 0 <= k < |s| ==> s[k] in DIGITS
  {
    if n < 10 then [DIGITS[n]] else Dec(n / 10) + [DIGITS[n % 10]]
  }

  /** %d. */
  function SignedDec(n: int): string {
    if n < 0 then "-" + Dec(-n) else Dec(n)
  }

  /** %03u: at least three digits, filled with zeros on the left. */
  function Padded(n: nat): (s: string)
    ensures |s| >= 3 && forall k :: 0 <= k < |s| ==> s[k] in DIGITS
  {
    var d := Dec(n);
    if |d| == 1 then "0" + ("0" + d) else if |d| == 2 then "0" + d else d
  }

  function DigitValue(c: char): nat {
    if '0' <= c <= '9' then c as int - '0' as int else 0
  }

  /** The number a digit string stands for. */
  function Value(s: string): nat {
    if s == "" then 0 else 10 * Value(s[..|s| - 1]) + DigitValue(s[|s| - 1])
  }

  lemma {:induction false} ValueOfDec(n: nat)
    ensures Value(Dec(n)) == n
  {
    assert forall d: nat :: d < 10 ==> DigitValue(DIGITS[d]) == d;
    if n < 10 {
      assert Dec(n)[..0] == "";
    } else {
      var s := Dec(n / 10) + [DIGITS[n % 10]];
      assert s[..|s| - 1] == Dec(n / 10);
      ValueOfDec(n / 10);
    }
  }

  lemma {:induction false} ValueOfZeros(s: string)
    ensures Value("0" + s) == Value(s)
  {
    if s == "" {
      assert ("0" + s)[..0] == "";
    } else {
      var init := s[..|s| - 1];
      assert ("0" + s)[..|s|] == "0" + init;
      ValueOfZeros(init);
    }
  }

  lemma ValueOfPadded(n: nat)
    ensures Value(Padded(n)) == n
  {
    var d := Dec(n);
    ValueOfDec(n);
    ValueOfZeros(d);
    ValueOfZeros("0" + d);
  }

  /** Different numbers print differently, with and without padding. */
  lemma FormatsInjective(m: nat, n: nat)
    ensures Dec(m) == Dec(n) ==> m == n
    ensures Padded(m) == Padded(n) ==> m == n
  {
    ValueOfDec(m);
    ValueOfDec(n);
    ValueOfPadded(m);
    ValueOfPadded(n);
  }
}
