/**
 * Destination-number validation: Python's `re.match` of the pattern
 * `^\+\d{7,15}$`, evaluated the way the regular-expression engine does
 * (a greedy bounded repetition of digits that backtracks until `$` matches),
 * and the E.164 shape the pattern is meant to describe.
 */
module Phone {
  import opened Text
  import opened Wrappers

  const MIN_DIGITS := 7
  const MAX_DIGITS := 15

  /** The message of the `ValueError` raised for a rejected number. */
  const PHONE_MESSAGE := "phone number must be E.164 (start with '+' and digits)"

  /** E.164 shape: a `+` followed by 7 to 15 decimal digits and nothing else. */
  predicate IsE164(s: string)
  {
    1 + MIN_DIGITS <= |s| <= 1 + MAX_DIGITS && s[0] == '+' && AllDigits(s[1..])
  }

  /** What `\d{,limit}` consumes greedily from position `from`. */
  function LeadingDigits(s: string, from: nat, limit: nat): (n: nat)
    requires from <= |s|
    ensures n <= limit && from + n <= |s|
    ensures forall i :: from <= i < from + n ==> IsDigit(s[i])
    ensures n < limit && from + n < |s| ==> !IsDigit(s[from + n])
    decreases limit
  {
    if limit == 0 || from == |s| || !IsDigit(s[from]) then 0
    else 1 + LeadingDigits(s, from + 1, limit - 1)
  }

  /** `$` without MULTILINE: the end of the text, or just before a final newline. */
  predicate DollarAt(s: string, i: nat)
  {
    i == |s| || (i + 1 == |s| && s[i] == '\n')
  }

  /**
   * After `^\+` and `k` digits, `$` is tried; on failure the repetition gives
   * back one digit, but never goes below the minimum of 7.
   */
  predicate Backtrack(s: string, k: nat)
    requires 1 + k <= |s|
    decreases k
  {
    k >= MIN_DIGITS && (DollarAt(s, 1 + k) || Backtrack(s, k - 1))
  }

  /** `PHONE_RE.match(s)` succeeds. */
  predicate PhoneReMatches(s: string)
  {
    1 <= |s| && s[0] == '+' && Backtrack(s, LeadingDigits(s, 1, MAX_DIGITS))
  }

  /** `_validate_phone`: returns normally, or gives the `ValueError` message it raises. */
  function ValidatePhone(number: string): (r: Option<string>)
    ensures r.Some? ==> r.value == PHONE_MESSAGE
  {
    if PhoneReMatches(number) then None else Some(PHONE_MESSAGE)
  }

  /** Giving back a digit never helps: `$` cannot match right before a digit. */
  lemma {:induction false} BacktrackOnlyAtTop(s: string, k: nat)
    requires 1 + k <= |s|
    requires forall i :: 1 <= i < 1 + k ==> IsDigit(s[i])
    ensures Backtrack(s, k) <==> k >= MIN_DIGITS && DollarAt(s, 1 + k)
    decreases k
  {
    if k >= MIN_DIGITS {
      BacktrackOnlyAtTop(s, k - 1);
      assert IsDigit(s[k]);
      assert !DollarAt(s, k);
    }
  }

  /**
   * The pattern accepts exactly the E.164 numbers, and also an E.164 number
   * followed by one newline (Python's `$` matches before a final "\n").
   */
  lemma PhoneReMatchesIff(s: string)
    ensures PhoneReMatches(s) <==>
      IsE164(s) || (1 <= |s| && s[|s| - 1] == '\n' && IsE164(s[..|s| - 1]))
  {
    if 1 <= |s| && s[0] == '+' {
      var n := LeadingDigits(s, 1, MAX_DIGITS);
      BacktrackOnlyAtTop(s, n);
      if IsE164(s) {
        assert forall i :: 1 <= i < |s| ==> IsDigit(s[i]) by {
          forall i | 1 <= i < |s| ensures IsDigit(s[i]) { assert s[1..][i - 1] == s[i]; }
        }
        assert n == |s| - 1;
      }
      var t := s[..|s| - 1];
      if s[|s| - 1] == '\n' && IsE164(t) {
        assert forall i :: 1 <= i < |s| - 1 ==> IsDigit(s[i]) by {
          forall i | 1 <= i < |s| - 1 ensures IsDigit(s[i]) { assert t[1..][i - 1] == s[i]; }
        }
        assert n == |s| - 2;
      }
      if PhoneReMatches(s) {
        if 1 + n == |s| {
          assert s[1..] == s[1..1 + n];
        } else {
          assert t[1..] == s[1..1 + n];
        }
      }
    }
  }

  /** Examples: a missing `+`, too few and too many digits. */
  lemma RejectedExamples()
    ensures ValidatePhone("5551234567").Some?
    ensures ValidatePhone("+123").Some?
    ensures ValidatePhone("+1234567890123456").Some?
  {
    PhoneReMatchesIff("5551234567");
    PhoneReMatchesIff("+123");
    var long := "+1234567890123456";
    PhoneReMatchesIff(long);
    assert |long[..|long| - 1]| == 16;
  }

  /** An E.164 number passes validation, with or without one trailing newline. */
  lemma AcceptsE164(s: string)
    requires IsE164(s)
    ensures ValidatePhone(s).None?
    ensures ValidatePhone(s + "\n").None?
  {
    PhoneReMatchesIff(s);
    var nl := s + "\n";
    assert nl[..|nl| - 1] == s;
    PhoneReMatchesIff(nl);
  }

  /** Example: a valid number is accepted, and so is the same number followed by a newline. */
  lemma AcceptedExamples()
    ensures ValidatePhone("+15551234567").None?
    ensures ValidatePhone("+15551234567\n").None?
  {
    var ok := "+15551234567";
    assert ok[1..] == "15551234567";
    assert IsE164(ok);
    AcceptsE164(ok);
    assert ok + "\n" == "+15551234567\n";
  }
}
