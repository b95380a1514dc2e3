/**
 * Credential validators: ordered rule chains over a string that return the
 * message of the first rule the input breaks, or `None` when it passes.
 * The regular-expression tests are written as scans over the string and
 * proved equal to their quantified meaning.
 */
module Validation {
  import opened Wrappers

  const UsernameRequired := "Username is required"
  const UsernameLength := "Username must be 3-20 characters long"
  const UsernameCharacters := "Username must contain only letters, numbers, and underscores"
  const PasswordRequired := "Password is required"
  const PasswordLength := "Password must be at least 5 characters long"
  const PasswordLowercase := "Password must contain at least one lowercase letter"
  const PasswordUppercase := "Password must contain at least one uppercase letter"
  const PasswordDigit := "Password must contain at least one number"

  const MinUsernameLength := 3
  const MaxUsernameLength := 20
  const MinPasswordLength := 5

  /** The three character classes the password rules look for, in the order they are checked. */
  datatype CharClass = Lowercase | Uppercase | Digit

  predicate InClass(c: char, k: CharClass)
  {
    match k
    case Lowercase => 'a' <= c <= 'z'
    case Uppercase => 'A' <= c <= 'Z'
    case Digit => '0' <= c <= '9'
  }

  /** An ASCII letter, an ASCII digit or the underscore. */
  predicate IsWordChar(c: char)
  {
    InClass(c, Lowercase) || InClass(c, Uppercase) || InClass(c, Digit) || c == '_'
  }

  /** Scans for a character of class `k`: the lower-case, upper-case or digit pattern test. */
  predicate ContainsClass(s: string, k: CharClass)
  {
    s != [] && (InClass(s[0], k) || ContainsClass(s[1..], k))
  }

  /** Scans that every character is a word character; together with non-emptiness this is the username pattern. */
  predicate AllWordChars(s: string)
  {
    s == [] || (IsWordChar(s[0]) && AllWordChars(s[1..]))
  }

  lemma {:induction false} ContainsClassMeans(s: string, k: CharClass)
    ensures ContainsClass(s, k) <==> exists i :: 0 <= i < |s| && InClass(s[i], k)
  {
    if s != [] {
      ContainsClassMeans(s[1..], k);
      if exists i :: 0 <= i < |s| && InClass(s[i], k) {
        var i :| 0 <= i < |s| && InClass(s[i], k);
        if i > 0 {
          assert InClass(s[1..][i - 1], k);
        }
      }
      if exists j :: 0 <= j < |s[1..]| && InClass(s[1..][j], k) {
        var j :| 0 <= j < |s[1..]| && InClass(s[1..][j], k);
        assert InClass(s[j + 1], k);
      }
    }
  }

  lemma {:induction false} AllWordCharsMeans(s: string)
    ensures AllWordChars(s) <==> forall i :: 0 <= i < |s| ==> IsWordChar(s[i])
  {
    if s != [] {
      AllWordCharsMeans(s[1..]);
      if forall i :: 0 <= i < |s| ==> IsWordChar(s[i]) {
        forall j | 0 <= j < |s[1..]| ensures IsWordChar(s[1..][j]) {
          assert s[1..][j] == s[j + 1];
        }
      }
      if AllWordChars(s) {
        forall i | 0 <= i < |s| ensures IsWordChar(s[i]) {
          if i > 0 {
            assert s[i] == s[1..][i - 1];
          }
        }
      }
    }
  }

  /** A username the signup rules accept: 3 to 20 characters, all letters, digits or underscores. */
  ghost predicate WellFormedUsername(u: string)
  {
    MinUsernameLength <= |u| <= MaxUsernameLength && forall i :: 0 <= i < |u| ==> IsWordChar(u[i])
  }

  ghost predicate HasClass(s: string, k: CharClass)
  {
    exists i :: 0 <= i < |s| && InClass(s[i], k)
  }

  /** A password the signup rules accept: at least 5 characters, with a lowercase letter, an uppercase letter and a digit. */
  ghost predicate StrongPassword(p: string)
  {
    |p| >= MinPasswordLength && HasClass(p, Lowercase) && HasClass(p, Uppercase) && HasClass(p, Digit)
  }

  function ValidateUsername(u: string): (r: Option<string>)
    ensures r.None? <==> WellFormedUsername(u)
    ensures r == Some(UsernameRequired) <==> u == ""
    ensures r == Some(UsernameLength) <==> u != "" && (|u| < MinUsernameLength || |u| > MaxUsernameLength)
    ensures r == Some(UsernameCharacters) <==>
              MinUsernameLength <= |u| <= MaxUsernameLength && exists i :: 0 <= i < |u| && !IsWordChar(u[i])
  {
    AllWordCharsMeans(u);
    if u == [] then Some(UsernameRequired)
    else if |u| < MinUsernameLength || |u| > MaxUsernameLength then Some(UsernameLength)
    else if !AllWordChars(u) then Some(UsernameCharacters)
    else None
  }

  function ValidatePassword(p: string): (r: Option<string>)
    ensures r.None? <==> StrongPassword(p)
    ensures r == Some(PasswordRequired) <==> p == ""
    ensures r == Some(PasswordLength) <==> 0 < |p| < MinPasswordLength
    ensures r == Some(PasswordLowercase) <==> |p| >= MinPasswordLength && !HasClass(p, Lowercase)
    ensures r == Some(PasswordUppercase) <==>
              |p| >= MinPasswordLength && HasClass(p, Lowercase) && !HasClass(p, Uppercase)
    ensures r == Some(PasswordDigit) <==>
              |p| >= MinPasswordLength && HasClass(p, Lowercase) && HasClass(p, Uppercase) && !HasClass(p, Digit)
  {
    ContainsClassMeans(p, Lowercase);
    ContainsClassMeans(p, Uppercase);
    ContainsClassMeans(p, Digit);
    if p == [] then Some(PasswordRequired)
    else if |p| < MinPasswordLength then Some(PasswordLength)
    else if !ContainsClass(p, Lowercase) then Some(PasswordLowercase)
    else if !ContainsClass(p, Uppercase) then Some(PasswordUppercase)
    else if !ContainsClass(p, Digit) then Some(PasswordDigit)
    else None
  }

  /** Per-field messages for a whole form, and whether neither field has one. */
  datatype FormErrors = FormErrors(username: Option<string>, password: Option<string>, isValid: bool)

  function ValidateSignupForm(u: string, p: string): (r: FormErrors)
    ensures r.username == ValidateUsername(u) && r.password == ValidatePassword(p)
    ensures r.isValid <==> WellFormedUsername(u) && StrongPassword(p)
  {
    var usernameError := ValidateUsername(u);
    var passwordError := ValidatePassword(p);
    FormErrors(usernameError, passwordError, usernameError.None? && passwordError.None?)
  }

  /** Login checks presence only; the server judges the credentials. */
  function ValidateLoginForm(u: string, p: string): (r: FormErrors)
    ensures r.isValid <==> u != "" && p != ""
    ensures r.username.None? <==> u != ""
    ensures r.password.None? <==> p != ""
    ensures r.username.Some? ==> r.username == Some(UsernameRequired)
    ensures r.password.Some? ==> r.password == Some(PasswordRequired)
  {
    var usernameError := if u == [] then Some(UsernameRequired) else None;
    var passwordError := if p == [] then Some(PasswordRequired) else None;
    FormErrors(usernameError, passwordError, usernameError.None? && passwordError.None?)
  }

  /** Every pair the signup form accepts, the login form accepts too. */
  lemma SignupValidImpliesLoginValid(u: string, p: string)
    requires ValidateSignupForm(u, p).isValid
    ensures ValidateLoginForm(u, p).isValid
  {
  }

  /** The converse fails: a one-letter username passes login validation but not signup validation. */
  lemma LoginIsWeakerThanSignup()
    ensures ValidateLoginForm("a", "Abc12").isValid
    ensures !ValidateSignupForm("a", "Abc12").isValid
    ensures ValidateSignupForm("a", "Abc12").username == Some(UsernameLength)
  {
  }

  /** The password examples: only the one with all three classes passes, and the first missing class is named. */
  lemma PasswordExamples()
    ensures ValidatePassword("Abc12").None?
    ensures ValidatePassword("abc12") == Some(PasswordUppercase)
    ensures ValidatePassword("ABC12") == Some(PasswordLowercase)
    ensures ValidatePassword("Abcde") == Some(PasswordDigit)
    ensures ValidatePassword("Ab1") == Some(PasswordLength)
  {
    assert InClass("Abc12"[1], Lowercase) && InClass("Abc12"[0], Uppercase) && InClass("Abc12"[3], Digit);
    assert InClass("abc12"[0], Lowercase);
    assert InClass("Abcde"[1], Lowercase) && InClass("Abcde"[0], Uppercase);
  }

  lemma UsernameExamples()
    ensures ValidateUsername("valid_user1").None?
    ensures ValidateUsername("ab") == Some(UsernameLength)
    ensures ValidateUsername("bad-name") == Some(UsernameCharacters)
    ensures ValidateUsername("") == Some(UsernameRequired)
  {
    assert !IsWordChar("bad-name"[3]);
  }
}
