/**
 * The two form-validation hooks. Each keeps a map from field name to the
 * field's current message (`None` for no message), updated one field at a
 * time or replaced wholesale.
 */
module ValidationHooks {
  import opened Wrappers
  import opened Validation

  type Errors = map<string, Option<string>>

  /** The starting map of both hooks: both fields present, neither with a message. */
  const NoErrors: Errors := map["username" := None, "password" := None]

  /** Signup per-field rule: the username rules for `username`, the password rules for any other name. */
  function SignupFieldError(field: string, value: string): (r: Option<string>)
    ensures field == "username" ==> (r.None? <==> WellFormedUsername(value))
    ensures field != "username" ==> (r.None? <==> StrongPassword(value))
  {
    if field == "username" then ValidateUsername(value) else ValidatePassword(value)
  }

  /** The upper-case form of one character, for the ASCII letters. */
  function UpperChar(c: char): char
  {
    if 'a' <= c <= 'z' then (c as int - 32) as char else c
  }

  /** A field name with its first character upper-cased, as it appears in the login messages. */
  function Capitalize(s: string): (r: string)
    ensures |r| == |s|
    ensures s != [] ==> r[0] == UpperChar(s[0])
    ensures forall i :: 1 <= i < |s| ==> r[i] == s[i]
  {
    if s == [] then [] else [UpperChar(s[0])] + s[1..]
  }

  /** Login per-field rule: an empty value gets "<Field> is required", anything else passes. */
  function LoginFieldError(field: string, value: string): (r: Option<string>)
    ensures r.None? <==> value != ""
    ensures r.Some? ==> r.value == Capitalize(field) + " is required"
  {
    if value == [] then Some(Capitalize(field) + " is required") else None
  }

  /** Validating one signup field gives the same message as validating the whole form. */
  lemma SignupFieldAgreesWithForm(u: string, p: string)
    ensures SignupFieldError("username", u) == ValidateSignupForm(u, p).username
    ensures SignupFieldError("password", p) == ValidateSignupForm(u, p).password
  {
  }

  /** Validating one login field gives the same message as validating the whole form. */
  lemma LoginFieldAgreesWithForm(u: string, p: string)
    ensures LoginFieldError("username", u) == ValidateLoginForm(u, p).username
    ensures LoginFieldError("password", p) == ValidateLoginForm(u, p).password
  {
    CapitalizedFieldNames();
    assert "Username" + " is required" == UsernameRequired;
    assert "Password" + " is required" == PasswordRequired;
  }

  lemma CapitalizedFieldNames()
    ensures Capitalize("username") == "Username"
    ensures Capitalize("password") == "Password"
  {
    assert UpperChar('u') == 'U' && UpperChar('p') == 'P';
    assert "username"[0] == 'u' && "username"[1..] == "sername";
    assert "password"[0] == 'p' && "password"[1..] == "assword";
  }

  class SignupValidation {
    var errors: Errors

    constructor ()
      ensures errors == NoErrors
    {
      errors := NoErrors;
    }

    /** Re-validates one field; only that entry changes. Answers whether the field passed. */
    method ValidateField(field: string, value: string) returns (ok: bool)
      modifies this
      ensures errors == old(errors)[field := SignupFieldError(field, value)]
      ensures ok <==> SignupFieldError(field, value).None?
    {
      var error := SignupFieldError(field, value);
      errors := errors[field := error];
      ok := error.None?;
    }

    /** Replaces the whole map with the form's two messages. Answers whether the form passed. */
    method ValidateForm(u: string, p: string) returns (ok: bool)
      modifies this
      ensures errors == map["username" := ValidateUsername(u), "password" := ValidatePassword(p)]
      ensures ok <==> WellFormedUsername(u) && StrongPassword(p)
    {
      var result := ValidateSignupForm(u, p);
      errors := map["username" := result.username, "password" := result.password];
      ok := result.isValid;
    }

    method ClearErrors()
      modifies this
      ensures errors == NoErrors
    {
      errors := map["username" := None, "password" := None];
    }
  }

  class LoginValidation {
    var errors: Errors

    constructor ()
      ensures errors == NoErrors
    {
      errors := NoErrors;
    }

    /** Re-validates one field; only that entry changes. Answers whether the field passed. */
    method ValidateField(field: string, value: string) returns (ok: bool)
      modifies this
      ensures errors == old(errors)[field := LoginFieldError(field, value)]
      ensures ok <==> value != ""
    {
      var error := LoginFieldError(field, value);
      errors := errors[field := error];
      ok := error.None?;
    }

    /** Replaces the whole map with the form's two messages. Answers whether the form passed. */
    method ValidateForm(u: string, p: string) returns (ok: bool)
      modifies this
      ensures errors == map["username" := ValidateLoginForm(u, p).username,
                            "password" := ValidateLoginForm(u, p).password]
      ensures ok <==> u != "" && p != ""
    {
      var result := ValidateLoginForm(u, p);
      errors := map["username" := result.username, "password" := result.password];
      ok := result.isValid;
    }

    method ClearErrors()
      modifies this
      ensures errors == NoErrors
    {
      errors := map["username" := None, "password" := None];
    }
  }
}
