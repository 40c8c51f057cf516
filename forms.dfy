/**
 * What the two payment forms share: the digit-only pattern rule (`/^[0-9]{lo,hi}$/`) and the
 * error/success feedback an `onSubmit` handler leaves behind.
 */
module Forms {
  import opened Wrappers

  predicate IsAsciiDigit(c: char)
  {
    '0' <= c <= '9'
  }

  predicate AllAsciiDigits(s: string)
  {
    forall i :: 0 <= i < |s| ==> IsAsciiDigit(s[i])
  }

  /** Length of the run of ASCII digits at the start of `s` (what `^[0-9]*` consumes). */
  function LeadingDigits(s: string): (n: nat)
    ensures n <= |s|
    ensures forall i :: 0 <= i < n ==> IsAsciiDigit(s[i])
    ensures n < |s| ==> !IsAsciiDigit(s[n])
  {
    if s == [] || !IsAsciiDigit(s[0]) then 0 else 1 + LeadingDigits(s[1..])
  }

  /** `/^[0-9]{lo,hi}$/.test(s)`: the digit run must reach the end and have a length in range. */
  function MatchesDigits(s: string, lo: nat, hi: nat): bool
  {
    var n := LeadingDigits(s);
    n == |s| && lo <= n <= hi
  }

  /** The pattern accepts exactly the all-digit strings whose length lies in [lo, hi]. */
  lemma MatchesDigitsExactly(s: string, lo: nat, hi: nat)
    ensures MatchesDigits(s, lo, hi) <==> lo <= |s| <= hi && AllAsciiDigits(s)
  {
  }

  /** A text field with a `required` rule and a digits pattern rule: the required message for an
      empty value, otherwise the pattern message when the pattern fails. */
  function DigitsFieldError(value: string, requiredMessage: string, lo: nat, hi: nat, patternMessage: string)
    : (r: Option<string>)
    ensures value == "" ==> r == Some(requiredMessage)
    ensures value != "" ==> (r.None? <==> lo <= |value| <= hi && AllAsciiDigits(value))
    ensures value != "" && r.Some? ==> r.value == patternMessage
  {
    MatchesDigitsExactly(value, lo, hi);
    if value == "" then Some(requiredMessage)
    else if !MatchesDigits(value, lo, hi) then Some(patternMessage)
    else None
  }

  /** What an `onSubmit` handler leaves on screen and whether it reset the form. */
  datatype Feedback = Feedback(error: Option<string>, success: Option<string>, reset: bool)
}
