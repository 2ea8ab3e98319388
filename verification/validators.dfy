/**
 * The input checks the forms share: the five password checks and the "four of five"
 * rule, the username pattern `^[a-zA-Z0-9_]{3,20}$`, the email pattern
 * `^[^\s@]+@[^\s@]+\.[^\s@]+$`, the OTP length and the login password length, each
 * written as a predicate over characters.
 */
module Validators {
  import opened Text

  /** `[!@#$%^&*(),.?":{}|<>]`: the twenty characters the special-character check accepts. */
  const SpecialChars: string := "!@#$%^&*(),.?\":{}|<>"

  predicate IsSpecial(c: char) {
    c in SpecialChars
  }

  predicate HasUpper(s: string) { exists i :: 0 <= i < |s| && IsAsciiUpper(s[i]) }
  predicate HasLower(s: string) { exists i :: 0 <= i < |s| && IsAsciiLower(s[i]) }
  predicate HasDigit(s: string) { exists i :: 0 <= i < |s| && IsAsciiDigit(s[i]) }
  predicate HasSpecial(s: string) { exists i :: 0 <= i < |s| && IsSpecial(s[i]) }

  /** The five checks of a password. */
  datatype Checks = Checks(length: bool, uppercase: bool, lowercase: bool, number: bool, special: bool)

  function PasswordChecks(password: string): (c: Checks)
    ensures c.length <==> |password| >= 8
    ensures c.uppercase <==> HasUpper(password)
    ensures c.lowercase <==> HasLower(password)
    ensures c.number <==> HasDigit(password)
    ensures c.special <==> HasSpecial(password)
  {
    Checks(|password| >= 8, HasUpper(password), HasLower(password), HasDigit(password), HasSpecial(password))
  }

  function Count(b: bool): nat { if b then 1 else 0 }

  /** `Object.values(checks).filter(Boolean).length`. */
  function Strength(c: Checks): (n: nat)
    ensures n <= 5
    ensures n == 5 <==> AllMet(c)
    ensures n == 0 <==> !c.length && !c.uppercase && !c.lowercase && !c.number && !c.special
  {
    Count(c.length) + Count(c.uppercase) + Count(c.lowercase) + Count(c.number) + Count(c.special)
  }

  /** `Object.values(checks).every(Boolean)`. */
  predicate AllMet(c: Checks) {
    c.length && c.uppercase && c.lowercase && c.number && c.special
  }

  /** The number of failing checks. */
  function Failures(c: Checks): nat {
    Count(!c.length) + Count(!c.uppercase) + Count(!c.lowercase) + Count(!c.number) + Count(!c.special)
  }

  /** `validatePassword`: at least four of the five checks pass. */
  predicate ValidPassword(password: string) {
    Strength(PasswordChecks(password)) >= 4
  }

  /** A password is accepted iff at most one check fails. */
  lemma ValidPasswordIffOneFailure(password: string)
    ensures ValidPassword(password) <==> Failures(PasswordChecks(password)) <= 1
  {
  }

  /** For instance, a long mixed-case password with a digit and no special character is accepted. */
  lemma NoSpecialStillValid()
    ensures !HasSpecial("Password1") && ValidPassword("Password1")
  {
    assert IsAsciiUpper("Password1"[0]) && IsAsciiLower("Password1"[1]) && IsAsciiDigit("Password1"[8]);
  }

  /** ... while a short one needs every other check. */
  lemma ShortLowercaseRejected()
    ensures !ValidPassword("abc1!")
  {
    assert !HasUpper("abc1!") by {
      forall i | 0 <= i < 5 ensures !IsAsciiUpper("abc1!"[i]) {}
    }
  }

  /** `[a-zA-Z0-9_]`. */
  predicate IsWordChar(c: char) {
    IsAsciiUpper(c) || IsAsciiLower(c) || IsAsciiDigit(c) || c == '_'
  }

  /** `/^[a-zA-Z0-9_]{3,20}$/.test(username)`. */
  predicate ValidUsername(username: string) {
    3 <= |username| <= 20 && forall i :: 0 <= i < |username| ==> IsWordChar(username[i])
  }

  /** Lower-casing an accepted username keeps it accepted. */
  lemma LowercasedUsernameStaysValid(username: string)
    requires ValidUsername(username)
    ensures ValidUsername(ToLower(username))
  {
    var lowered := ToLower(username);
    forall i | 0 <= i < |lowered| ensures IsWordChar(lowered[i]) {
      assert lowered[i] == ToLowerChar(username[i]);
    }
  }

  /** `[^\s@]`. */
  predicate IsEmailChar(c: char) {
    !IsWhitespace(c) && c != '@'
  }

  predicate AllEmailChars(s: string) {
    forall i :: 0 <= i < |s| ==> IsEmailChar(s[i])
  }

  /** `[^\s@]+\.[^\s@]+` matched against the whole domain part. */
  predicate ValidDomain(domain: string) {
    AllEmailChars(domain) && exists k :: 1 <= k < |domain| - 1 && domain[k] == '.'
  }

  /** `/^[^\s@]+@[^\s@]+\.[^\s@]+$/.test(email)`. */
  predicate ValidEmail(email: string) {
    exists a :: 0 < a < |email| && email[a] == '@' && AllEmailChars(email[..a]) && ValidDomain(email[a + 1..])
  }

  /** An accepted address has no whitespace and exactly one "@", neither first nor last. */
  lemma ValidEmailShape(email: string, a: nat)
    requires a < |email| && email[a] == '@'
    requires ValidEmail(email)
    ensures forall i :: 0 <= i < |email| ==> !IsWhitespace(email[i])
    ensures forall i :: 0 <= i < |email| && email[i] == '@' ==> i == a
    ensures 0 < a < |email| - 1
  {
    var b :| 0 < b < |email| && email[b] == '@' && AllEmailChars(email[..b]) && ValidDomain(email[b + 1..]);
    forall i | 0 <= i < |email| ensures IsEmailChar(email[i]) || i == b {
      if i < b {
        assert email[i] == email[..b][i];
      } else if i > b {
        assert email[i] == email[b + 1..][i - b - 1];
      }
    }
    assert a == b;
  }

  lemma EmailExamples()
    ensures ValidEmail("a@b.co")
    ensures !ValidEmail("a@b")
    ensures !ValidEmail("@b.co")
  {
    assert "a@b.co"[1] == '@' && "a@b.co"[..1] == "a" && "a@b.co"[2..] == "b.co";
    assert "b.co"[1] == '.';
    assert !ValidEmail("a@b") by {
      forall a | 0 < a < 3 && "a@b"[a] == '@' ensures !ValidDomain("a@b"[a + 1..]) {
        assert a == 1 && "a@b"[2..] == "b";
      }
    }
  }

  /** The OTP field must hold exactly six characters. */
  predicate ValidOtpLength(otp: string) {
    |otp| == 6
  }

  /** The login form's only password rule: at least eight characters. */
  predicate LoginPasswordLongEnough(password: string) {
    |password| >= 8
  }

  /** `a.length > 0 && b.length > 0 && a === b`. */
  predicate PasswordsMatch(password: string, confirmation: string) {
    |password| > 0 && |confirmation| > 0 && password == confirmation
  }

  /** Two fields match iff they hold the same non-empty text. */
  lemma PasswordsMatchIff(password: string, confirmation: string)
    ensures PasswordsMatch(password, confirmation) <==> password == confirmation && password != ""
  {
  }
}
