/** The scalar PHP values a condition, a limit or an offset may hold, and PHP's string cast of them. */
module Values {

  /** A non-array PHP value. Floats, objects and resources are not modelled. */
  datatype Scalar = Null | Bool(b: bool) | Int(i: int) | Str(s: string)

  predicate IsDigit(c: char) { '0' <= c <= '9' }

  /** `ctype_digit` on a string: non-empty and made of ASCII digits only. */
  predicate CtypeDigit(s: string)
  {
    |s| > 0 && forall k :: 0 <= k < |s| ==> IsDigit(s[k])
  }

  function DigitChar(d: nat): (c: char)
    requires d < 10
    ensures IsDigit(c) && c as int - '0' as int == d
  {
    "0123456789"[d]
  }

  /** The decimal digits of a natural number, most significant first. */
  function NatString(n: nat): string
    decreases n
  {
    if n < 10 then [DigitChar(n)] else NatString(n / 10) + [DigitChar(n % 10)]
  }

  function DigitValue(c: char): nat
    requires IsDigit(c)
  {
    c as int - '0' as int
  }

  /** The number a string of decimal digits denotes. */
  function DigitsValue(s: string): nat
    requires forall k :: 0 <= k < |s| ==> IsDigit(s[k])
  {
    if s == [] then 0 else DigitsValue(s[..|s| - 1]) * 10 + DigitValue(s[|s| - 1])
  }

  /** NatString writes digits only, and reading them back gives the number. */
  lemma {:induction false} NatStringRoundTrip(n: nat)
    ensures CtypeDigit(NatString(n))
    ensures DigitsValue(NatString(n)) == n
  {
    if n >= 10 {
      NatStringRoundTrip(n / 10);
      var s := NatString(n);
      assert s[..|s| - 1] == NatString(n / 10);
    }
  }

  /** The only natural number written "0" is zero. */
  lemma NatStringZero(n: nat)
    ensures NatString(n) == "0" <==> n == 0
  {
    NatStringRoundTrip(n);
    if NatString(n) == "0" {
      assert DigitsValue("0") == 0;
    }
  }

  /** PHP's decimal form of an integer. */
  function IntString(i: int): (s: string)
    ensures |s| > 0
  {
    if i < 0 then "-" + NatString(-i) else NatString(i)
  }

  /** `(string) $v`: null and false give "", true gives "1", integers their decimal form. */
  function StrOf(v: Scalar): string
  {
    match v
    case Null => ""
    case Bool(b) => if b then "1" else ""
    case Int(i) => IntString(i)
    case Str(s) => s
  }

  /** Exactly null, false and the empty string cast to "". */
  lemma StrOfEmpty(v: Scalar)
    ensures StrOf(v) == "" <==> v == Null || v == Bool(false) || v == Str("")
  {
  }
}
