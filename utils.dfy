/**
 * lib/utils.ts: the full-width digit normaliser applied to every numeric
 * input, and the guard of the currency formatter.
 */
module Utils {
  import opened Common

  /** A full-width digit, U+FF10 (０) to U+FF19 (９). */
  predicate IsFullWidthDigit(c: char) {
    '\U{FF10}' <= c <= '\U{FF19}'
  }

  /** The distance between a full-width digit and its ASCII counterpart. */
  const Shift: int := 0xFEE0

  /** One character through the replacement: full-width digits move down by Shift. */
  function HalfWidthChar(c: char): (d: char)
    ensures IsFullWidthDigit(c) ==> '0' <= d <= '9' && d as int == c as int - Shift
    ensures !IsFullWidthDigit(c) ==> d == c
  {
    if IsFullWidthDigit(c) then (c as int - Shift) as char else c
  }

  /** The string with every full-width digit replaced by its ASCII digit. */
  function ConvertToHalfWidth(s: string): (r: string)
    ensures |r| == |s|
    ensures forall i :: 0 <= i < |s| ==> r[i] == HalfWidthChar(s[i])
  {
    if s == [] then [] else [HalfWidthChar(s[0])] + ConvertToHalfWidth(s[1..])
  }

  /** No full-width digit survives the conversion. */
  lemma NoFullWidthDigitRemains(s: string)
    ensures forall i :: 0 <= i < |s| ==> !IsFullWidthDigit(ConvertToHalfWidth(s)[i])
  {
  }

  /** Converting twice is converting once. */
  lemma {:induction false} ConvertIdempotent(s: string)
    ensures ConvertToHalfWidth(ConvertToHalfWidth(s)) == ConvertToHalfWidth(s)
  {
    var once := ConvertToHalfWidth(s);
    var twice := ConvertToHalfWidth(once);
    forall i | 0 <= i < |s|
      ensures twice[i] == once[i]
    {
      assert !IsFullWidthDigit(once[i]);
    }
  }

  /** A string without full-width digits is left exactly as it is. */
  lemma ConvertKeepsOtherStrings(s: string)
    requires forall i :: 0 <= i < |s| ==> !IsFullWidthDigit(s[i])
    ensures ConvertToHalfWidth(s) == s
  {
  }

  /** The digit a full-width digit stands for is the digit it becomes. */
  lemma DigitValuePreserved(c: char)
    requires IsFullWidthDigit(c)
    ensures HalfWidthChar(c) as int - '0' as int == c as int - '\U{FF10}' as int
  {
  }

  /** What formatCurrency shows: a non-finite value is shown as 計算不可. */
  datatype Display = NotComputable | Currency(amount: real)

  function FormatCurrency(v: Extended): (d: Display)
    ensures d == NotComputable <==> v == Infinity
    ensures v.Finite? ==> d == Currency(v.value)
  {
    if v == Infinity then NotComputable else Currency(v.value)
  }
}
