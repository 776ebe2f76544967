/** `hasLimit` and `hasOffset`: which limit and offset values ActiveQuery treats as effective. */
module Paging {
  import opened Values

  /** `hasLimit`: a string of digits, or an integer that is not negative. */
  predicate HasLimit(limit: Scalar)
  {
    (limit.Str? && CtypeDigit(limit.s)) || (limit.Int? && limit.i >= 0)
  }

  /** `hasOffset`: a positive integer, or a string of digits other than "0". */
  predicate HasOffset(offset: Scalar)
  {
    (offset.Int? && offset.i > 0) || (offset.Str? && CtypeDigit(offset.s) && offset.s != "0")
  }

  /**
   * The offset `buildLimit` sends: an ineffective one is replaced by the integer 0. What is sent
   * is always a non-negative integer or a digit string, and it is effective exactly when the
   * configured offset was.
   */
  function EffectiveOffset(offset: Scalar): (r: Scalar)
    ensures HasLimit(r)
    ensures HasOffset(r) <==> HasOffset(offset)
    ensures r == offset || r == Int(0)
  {
    if HasOffset(offset) then offset else Int(0)
  }

  /** Normalising an offset a second time changes nothing. */
  lemma EffectiveOffsetIdempotent(offset: Scalar)
    ensures EffectiveOffset(EffectiveOffset(offset)) == EffectiveOffset(offset)
  {
  }

  /** Every effective offset would also be an effective limit. */
  lemma OffsetIsLimit(v: Scalar)
    ensures HasOffset(v) ==> HasLimit(v)
  {
  }

  /** The values effective as a limit but not as an offset are exactly the two spellings of zero. */
  lemma ZeroIsLimitNotOffset(v: Scalar)
    ensures HasLimit(v) && !HasOffset(v) <==> v == Int(0) || v == Str("0")
  {
    if v == Str("0") {
      assert CtypeDigit("0");
    }
  }

  /** Null, booleans, negative integers and the empty string are never effective. */
  lemma NeverEffective(v: Scalar)
    requires v == Null || v.Bool? || (v.Int? && v.i < 0) || v == Str("")
    ensures !HasLimit(v) && !HasOffset(v)
  {
  }

  /** A zero-padded zero such as "00" is taken for an effective offset: only "0" itself is excluded. */
  lemma PaddedZeroIsOffset()
    ensures HasOffset(Str("00"))
  {
    assert CtypeDigit("00");
  }

  /** A natural number and its decimal string are equally effective, as a limit and as an offset. */
  lemma DecimalStringAgrees(n: nat)
    ensures HasLimit(Int(n)) == HasLimit(Str(NatString(n)))
    ensures HasOffset(Int(n)) == HasOffset(Str(NatString(n)))
  {
    NatStringRoundTrip(n);
    NatStringZero(n);
  }

  /** A negative integer's decimal string is not a string of digits. */
  lemma NegativeStringIneffective(i: int)
    requires i < 0
    ensures !HasLimit(Str(IntString(i))) && !HasOffset(Str(IntString(i)))
  {
    assert IntString(i)[0] == '-';
  }
}
