/**
 * The part of Go's strconv package that the environment resolver uses:
 * Itoa, the decimal rendering of a process identifier, together with the
 * parse that inverts it.
 */
module StrConv {

  predicate IsDigit(c: char) {
    '0' <= c <= '9'
  }

  /** The character for a digit below ten. */
  function DigitChar(d: nat): (c: char)
    requires d < 10
    ensures IsDigit(c) && c as int - '0' as int == d
  {
    (d + '0' as int) as char
  }

  /**
   * strconv.Itoa on a non-negative number: its decimal digits, most
   * significant first, with no leading zero ("0" for zero).
   */
  function Itoa(n: nat): (s: string)
    ensures |s| >= 1
    ensures forall i :: 0 <= i < |s| ==> IsDigit(s[i])
    ensures s[0] == '0' <==> n == 0
    ensures n == 0 ==> s == "0"
    decreases n
  {
    if n < 10 then [DigitChar(n)] else Itoa(n / 10) + [DigitChar(n % 10)]
  }

  /** The number a string of decimal digits denotes, read most significant digit first. */
  function ParseDecimal(s: string): (n: nat)
    requires forall i :: 0 <= i < |s| ==> IsDigit(s[i])
  {
    if s == [] then 0
    else
      var last := s[|s| - 1];
      assert IsDigit(last);
      10 * ParseDecimal(s[..|s| - 1]) + (last as int - '0' as int)
  }

  /** Reading back what Itoa renders gives the number again. */
  lemma {:induction false} ParseItoa(n: nat)
    ensures ParseDecimal(Itoa(n)) == n
    decreases n
  {
    var s := Itoa(n);
    if n >= 10 {
      ParseItoa(n / 10);
      assert s[..|s| - 1] == Itoa(n / 10);
    }
  }

  /** Different numbers have different renderings. */
  lemma ItoaInjective(a: nat, b: nat)
    ensures Itoa(a) == Itoa(b) ==> a == b
  {
    ParseItoa(a);
    ParseItoa(b);
  }
}
