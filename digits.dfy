/**
 * The decimal-digit validator that guards the debug-level option of the
 * dump driver (`is_digits` in src/main.c).
 */
module Digits {

  /** `isdigit` in the C locale: the ten ASCII decimal digits. */
  predicate IsDigit(ch: char) {
    '0' <= ch <= '9'
  }

  /** Every character of `s` is a decimal digit (vacuously so for ""). */
  predicate AllDigits(s: string) {
    forall i :: 0 <= i < |s| ==> IsDigit(s[i])
  }

  /**
   * The index at which the validator's loop stops: the first non-digit,
   * or |s| when there is none.
   */
  function FirstNonDigit(s: string): (k: nat)
    ensures k <= |s|
    ensures forall j :: 0 <= j < k ==> IsDigit(s[j])
    ensures k < |s| ==> !IsDigit(s[k])
  {
    if s == [] || !IsDigit(s[0]) then 0 else 1 + FirstNonDigit(s[1..])
  }

  /** The loop accepts exactly when it runs off the end of the string. */
  lemma AllDigitsIffNoStop(s: string)
    ensures AllDigits(s) <==> FirstNonDigit(s) == |s|
  {
    if FirstNonDigit(s) < |s| {
      assert !IsDigit(s[FirstNonDigit(s)]);
    }
  }

  /**
   * `is_digits`: scan with a counter, break at the first non-digit, and
   * accept iff the counter reached the length of the string.
   */
  method IsDigits(s: string) returns (ok: bool)
    ensures ok <==> AllDigits(s)
    ensures ok <==> FirstNonDigit(s) == |s|
  {
    var i := 0;
    while i < |s|
      invariant 0 <= i <= |s|
      invariant forall j :: 0 <= j < i ==> IsDigit(s[j])
    {
      if !IsDigit(s[i]) {
        break;
      }
      i := i + 1;
    }
    ok := i == |s|;
    AllDigitsIffNoStop(s);
  }
}
