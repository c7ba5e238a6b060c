/** The password strength policy (auth/password.ts `validatePasswordStrength`). */
module Password {
  import opened JsString

  /** The two character classes the policy tests for, `/[A-Za-z]/` and `/\d/`. */
  datatype CharClass = AsciiLetter | Digit

  predicate InClass(c: char, k: CharClass) {
    match k
    case AsciiLetter => ('A' <= c <= 'Z') || ('a' <= c <= 'z')
    case Digit => '0' <= c <= '9'
  }

  /** `/[...]/.test(s)`: scans the string for one character of the class. */
  predicate Matches(s: string, k: CharClass) {
    s != [] && (InClass(s[0], k) || Matches(s[1..], k))
  }

  /** The scan finds a character of the class exactly when one occurs. */
  lemma {:induction false} MatchesIff(s: string, k: CharClass)
    ensures Matches(s, k) <==> exists i :: 0 <= i < |s| && InClass(s[i], k)
  {
    if s != [] {
      MatchesIff(s[1..], k);
      if Matches(s[1..], k) {
        var i :| 0 <= i < |s[1..]| && InClass(s[1..][i], k);
        assert InClass(s[i + 1], k);
      }
      if exists i :: 0 <= i < |s| && InClass(s[i], k) {
        var i :| 0 <= i < |s| && InClass(s[i], k);
        if i > 0 {
          assert InClass(s[1..][i - 1], k);
        }
      }
    }
  }

  /** The verdict of the policy; each failure is one of the source's two messages. */
  datatype Strength = Strong | TooShort(minLength: int) | NeedsLetterAndDigit

  /** The empty password and any password shorter than `minLength` UTF-16 units
      are too short; that failure wins over the letter-and-digit rule, which
      applies only when `requireAlnum` is set. */
  function ValidatePasswordStrength(password: string, minLength: int, requireAlnum: bool): (r: Strength)
    ensures r.TooShort? <==> password == [] || Utf16Length(password) < minLength
    ensures r.TooShort? ==> r.minLength == minLength
    ensures r.NeedsLetterAndDigit? <==>
      !r.TooShort? && requireAlnum &&
      !((exists i :: 0 <= i < |password| && InClass(password[i], AsciiLetter)) &&
        (exists i :: 0 <= i < |password| && InClass(password[i], Digit)))
    ensures r.Strong? ==> password != [] && Utf16Length(password) >= minLength
    ensures !requireAlnum ==> (r.Strong? <==> password != [] && Utf16Length(password) >= minLength)
  {
    MatchesIff(password, AsciiLetter);
    MatchesIff(password, Digit);
    if password == [] || Utf16Length(password) < minLength then
      TooShort(minLength)
    else if requireAlnum && !(Matches(password, AsciiLetter) && Matches(password, Digit)) then
      NeedsLetterAndDigit
    else
      Strong
  }

  /** The empty password is rejected for every setting, `minLength` 0 included. */
  lemma EmptyPasswordRejected(minLength: int, requireAlnum: bool)
    ensures !ValidatePasswordStrength([], minLength, requireAlnum).Strong?
  {
  }

  /** Under the default policy (8 units, letter and digit) "Passw0rd" passes. */
  lemma DefaultPolicyAccepts()
    ensures ValidatePasswordStrength("Passw0rd", 8, true).Strong?
  {
    assert InClass("Passw0rd"[0], AsciiLetter);
    assert InClass("Passw0rd"[5], Digit);
  }

  /** Under the default policy "password" lacks a digit and "Pa55" is too short. */
  lemma DefaultPolicyRejects()
    ensures ValidatePasswordStrength("password", 8, true) == NeedsLetterAndDigit
    ensures ValidatePasswordStrength("Pa55", 8, true) == TooShort(8)
  {
    assert forall i :: 0 <= i < |"password"| ==> !InClass("password"[i], Digit);
  }
}
