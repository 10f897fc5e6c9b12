/** The pure validators of the login screen: email shape, password length, the whole login form. */
module Validation {
  import opened Wrappers
  import opened JsString

  const EmailRequired := "El email es requerido"
  const EmailInvalid := "Por favor ingresa un email válido"
  const PasswordRequired := "La contraseña es requerida"
  const PasswordMinLength := "La contraseña debe tener al menos 6 caracteres"
  const MinPasswordLength := 6

  /** `{ isValid, message? }`: a message is present exactly on failure. */
  datatype ValidationResult = ValidationResult(isValid: bool, message: Option<string>)

  /** The character class `[^\s@]`. */
  predicate Plain(c: char) { !IsSpace(c) && c != '@' }

  predicate AllPlain(t: string) {
    forall k :: 0 <= k < |t| ==> Plain(t[k])
  }

  /** The email pattern matched with its `@` at `i` and its separating `.` at `j`. */
  predicate EmailAt(s: string, i: int, j: int) {
    && 0 < i && i + 1 < j && j + 1 < |s| && s[i] == '@' && s[j] == '.'
    && AllPlain(s[..i]) && AllPlain(s[i + 1..j]) && AllPlain(s[j + 1..])
  }

  /**
   * `/^[^\s@]+@[^\s@]+\.[^\s@]+$/.test(s)`: three non-empty runs free of white space and `@`,
   * the first two joined by `@`, the last two by `.`.
   */
  predicate EmailPattern(s: string) {
    exists i, j | 0 < i < |s| && 0 < j < |s| :: EmailAt(s, i, j)
  }

  /** A domain with its inner `.` at `j`. */
  predicate DomainAt(d: string, j: int) {
    AllPlain(d) && 0 < j < |d| - 1 && d[j] == '.'
  }

  /** A domain: free of white space and `@`, with a `.` that is neither its first nor its last character. */
  predicate DomainShape(d: string) {
    exists j | 0 < j < |d| :: DomainAt(d, j)
  }

  /** `local@domain` split at `i`: a non-empty plain local part, then a domain. */
  predicate LocalDomainAt(s: string, i: int) {
    0 < i < |s| && s[i] == '@' && AllPlain(s[..i]) && DomainShape(s[i + 1..])
  }

  /** A plain slice says its characters, at their own positions, are plain. */
  lemma PlainPart(s: string, lo: nat, hi: nat)
    requires lo <= hi <= |s| && AllPlain(s[lo..hi])
    ensures forall k :: lo <= k < hi ==> Plain(s[k])
  {
    forall k | lo <= k < hi ensures Plain(s[k]) {
      assert s[k] == s[lo..hi][k - lo];
    }
  }

  lemma EmailAtDomain(s: string, i: int, j: int)
    requires EmailAt(s, i, j)
    ensures DomainAt(s[i + 1..], j - i - 1)
  {
    var d := s[i + 1..];
    PlainPart(s, i + 1, j);
    PlainPart(s, j + 1, |s|);
    forall k | 0 <= k < |d| ensures Plain(d[k]) {
      assert d[k] == s[i + 1 + k];
    }
  }

  lemma DomainEmailAt(s: string, i: int, j': int)
    requires 0 < i < |s| && s[i] == '@' && AllPlain(s[..i]) && DomainAt(s[i + 1..], j')
    ensures EmailAt(s, i, i + 1 + j')
  {
    var d := s[i + 1..];
    var j := i + 1 + j';
    assert s[i + 1..j] == d[..j'];
    assert s[j + 1..] == d[j' + 1..];
  }

  /** The email pattern is exactly `local@domain` with a non-empty plain local part and a domain shape. */
  lemma EmailPatternIff(s: string)
    ensures EmailPattern(s) <==> exists i :: LocalDomainAt(s, i)
  {
    if EmailPattern(s) {
      var i, j :| EmailAt(s, i, j);
      EmailAtDomain(s, i, j);
      assert LocalDomainAt(s, i);
    }
    if exists i :: LocalDomainAt(s, i) {
      var i :| LocalDomainAt(s, i);
      var j' :| DomainAt(s[i + 1..], j');
      DomainEmailAt(s, i, j');
    }
  }

  /**
   * `validateEmail`: white space alone gives "requerido"; otherwise the untrimmed text must match
   * the email pattern, else "válido". The first guard is `!email.trim()`, written here as the
   * condition under which trimming leaves nothing (`ValidateEmailTrim`).
   */
  function ValidateEmail(email: string): (r: ValidationResult)
    ensures r.isValid <==> r.message.None?
    ensures AllSpace(email) ==> r == ValidationResult(false, Some(EmailRequired))
    ensures !AllSpace(email) ==> (r.isValid <==> EmailPattern(email))
    ensures !AllSpace(email) && !EmailPattern(email) ==> r.message == Some(EmailInvalid)
  {
    if AllSpace(email) then ValidationResult(false, Some(EmailRequired))
    else if !EmailPattern(email) then ValidationResult(false, Some(EmailInvalid))
    else ValidationResult(true, None)
  }

  /** The email is "requerido" exactly when trimming it leaves the empty string. */
  lemma ValidateEmailTrim(email: string)
    ensures ValidateEmail(email).message == Some(EmailRequired) <==> Trim(email) == ""
  {
    TrimEmpty(email);
  }

  /** A string matching the email pattern holds no white space at all. */
  lemma EmailPatternHasNoSpace(email: string)
    requires EmailPattern(email)
    ensures forall k :: 0 <= k < |email| ==> !IsSpace(email[k])
  {
    var i, j :| 0 < i < |email| && 0 < j < |email| && EmailAt(email, i, j);
    assert email[0..i] == email[..i] && email[j + 1..|email|] == email[j + 1..];
    PlainPart(email, 0, i);
    PlainPart(email, i + 1, j);
    PlainPart(email, j + 1, |email|);
  }

  /** A valid email holds no white space, so trimming it changes nothing. */
  lemma ValidEmailIsTrimmed(email: string)
    requires ValidateEmail(email).isValid
    ensures forall k :: 0 <= k < |email| ==> !IsSpace(email[k])
    ensures Trim(email) == email
  {
    EmailPatternHasNoSpace(email);
    TrimNoEdgeSpace(email);
  }

  /** `validatePassword`: valid exactly from six characters; empty and short get their own messages. */
  function ValidatePassword(password: string): (r: ValidationResult)
    ensures r.isValid <==> r.message.None?
    ensures r.isValid <==> |password| >= MinPasswordLength
    ensures password == "" ==> r.message == Some(PasswordRequired)
    ensures 0 < |password| < MinPasswordLength ==> r.message == Some(PasswordMinLength)
  {
    if password == "" then ValidationResult(false, Some(PasswordRequired))
    else if |password| < MinPasswordLength then ValidationResult(false, Some(PasswordMinLength))
    else ValidationResult(true, None)
  }

  /**
   * The errors record of `validateLoginForm`: it can only ever hold the keys `email` and
   * `password`, so each is an optional message here (`None` for a key that is absent).
   */
  datatype LoginErrors = LoginErrors(email: Option<string>, password: Option<string>)

  const NoLoginErrors := LoginErrors(None, None)

  /** `validateLoginForm`'s result: the errors record and whether it has no key. */
  datatype LoginValidation = LoginValidation(isValid: bool, errors: LoginErrors)

  /**
   * `validateLoginForm`: key `email` exactly when the email fails, key `password` exactly when the
   * password fails, each with its validator's message; valid exactly when both pass.
   */
  function ValidateLoginForm(email: string, password: string): (r: LoginValidation)
    ensures r.errors.email.Some? <==> !ValidateEmail(email).isValid
    ensures r.errors.email.Some? ==> ValidateEmail(email).message == r.errors.email
    ensures r.errors.password.Some? <==> !ValidatePassword(password).isValid
    ensures r.errors.password.Some? ==> ValidatePassword(password).message == r.errors.password
    ensures r.isValid <==> r.errors == NoLoginErrors
    ensures r.isValid <==> ValidateEmail(email).isValid && ValidatePassword(password).isValid
  {
    var emailValidation := ValidateEmail(email);
    var passwordValidation := ValidatePassword(password);
    var errors := LoginErrors(
      if emailValidation.isValid then None else emailValidation.message,
      if passwordValidation.isValid then None else passwordValidation.message);
    LoginValidation(errors == NoLoginErrors, errors)
  }

  /** A login form the validator accepts has a non-empty email and a password of six characters or more. */
  lemma AcceptedLoginFilled(email: string, password: string)
    requires ValidateLoginForm(email, password).isValid
    ensures email != "" && |password| >= MinPasswordLength
  {
    assert !AllSpace(email);
  }
}
