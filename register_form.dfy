/**
 * The registration form hook: six fields, a field-by-field rule set whose errors replace the
 * error record, per-field error clearing on input, the two show-password flags and the button label.
 */
module RegisterForm {
  import opened Wrappers
  import opened JsString
  import Validation

  const FirstNameRequired := "El nombre es requerido"
  const FirstNameShort := "El nombre debe tener al menos 2 caracteres"
  const LastNameRequired := "El apellido es requerido"
  const LastNameShort := "El apellido debe tener al menos 2 caracteres"
  const EmailRequired := "El email es requerido"
  const EmailInvalid := "Ingresa un email válido"
  const PasswordRequired := "La contraseña es requerida"
  const PasswordShort := "La contraseña debe tener al menos 8 caracteres"
  const PasswordWeak := "La contraseña debe contener al menos una mayúscula, una minúscula y un número"
  const ConfirmRequired := "Confirma tu contraseña"
  const ConfirmMismatch := "Las contraseñas no coinciden"
  const TermsRequired := "Debes aceptar los términos y condiciones"
  const SubmitFailed := "Error al crear la cuenta. Por favor, inténtalo de nuevo."
  const MinNameLength := 2
  const MinPasswordLength := 8
  const CreatingText := "Creando cuenta..."
  const CreateText := "Crear cuenta"

  datatype RegisterFormData = RegisterFormData(
    firstName: string, lastName: string, email: string,
    password: string, confirmPassword: string, acceptTerms: bool)

  const EmptyForm := RegisterFormData("", "", "", "", "", false)

  datatype Field = FirstName | LastName | Email | Password | ConfirmPassword | AcceptTerms

  /**
   * The error record: an absent or `undefined` entry is `None`; `general` is set only by a failed
   * submission.
   */
  datatype RegisterErrors = RegisterErrors(
    firstName: Option<string>, lastName: Option<string>, email: Option<string>,
    password: Option<string>, confirmPassword: Option<string>, acceptTerms: Option<string>,
    general: Option<string>)

  const NoErrors := RegisterErrors(None, None, None, None, None, None, None)

  /** `errors[field]`. */
  function ErrorOf(errors: RegisterErrors, f: Field): Option<string>
  {
    match f
    case FirstName => errors.firstName
    case LastName => errors.lastName
    case Email => errors.email
    case Password => errors.password
    case ConfirmPassword => errors.confirmPassword
    case AcceptTerms => errors.acceptTerms
  }

  /** `{...errors, [field]: undefined}`: only that field's entry is cleared. */
  function ClearError(errors: RegisterErrors, f: Field): (r: RegisterErrors)
    ensures ErrorOf(r, f) == None
    ensures forall g: Field :: g != f ==> ErrorOf(r, g) == ErrorOf(errors, g)
    ensures r.general == errors.general
  {
    match f
    case FirstName => errors.(firstName := None)
    case LastName => errors.(lastName := None)
    case Email => errors.(email := None)
    case Password => errors.(password := None)
    case ConfirmPassword => errors.(confirmPassword := None)
    case AcceptTerms => errors.(acceptTerms := None)
  }

  /** `{...formData, [field]: value}`, with the checked flag for the terms box. */
  function WithInput(d: RegisterFormData, f: Field, value: string, checked: bool): (r: RegisterFormData)
    ensures r.firstName == if f == FirstName then value else d.firstName
    ensures r.lastName == if f == LastName then value else d.lastName
    ensures r.email == if f == Email then value else d.email
    ensures r.password == if f == Password then value else d.password
    ensures r.confirmPassword == if f == ConfirmPassword then value else d.confirmPassword
    ensures r.acceptTerms == if f == AcceptTerms then checked else d.acceptTerms
  {
    match f
    case FirstName => d.(firstName := value)
    case LastName => d.(lastName := value)
    case Email => d.(email := value)
    case Password => d.(password := value)
    case ConfirmPassword => d.(confirmPassword := value)
    case AcceptTerms => d.(acceptTerms := checked)
  }

  /** The rule for a name: required once trimmed, then at least two characters once trimmed. */
  function NameError(value: string, required: string, short: string): (r: Option<string>)
    ensures r.None? <==> |Trim(value)| >= MinNameLength
    ensures Trim(value) == "" ==> r == Some(required)
    ensures Trim(value) != "" && |Trim(value)| < MinNameLength ==> r == Some(short)
    ensures r.Some? ==> r.value == required || r.value == short
  {
    var t := Trim(value);
    if t == "" then Some(required)
    else if |t| < MinNameLength then Some(short)
    else None
  }

  /** The email rule: required when empty (untrimmed), then the same pattern the login validator uses. */
  function EmailError(email: string): (r: Option<string>)
    ensures r.None? <==> Validation.EmailPattern(email)
    ensures email == "" <==> r == Some(EmailRequired)
    ensures email != "" && !Validation.EmailPattern(email) ==> r == Some(EmailInvalid)
    ensures r.Some? ==> r.value == EmailRequired || r.value == EmailInvalid
  {
    if email == "" then Some(EmailRequired)
    else if !Validation.EmailPattern(email) then Some(EmailInvalid)
    else None
  }

  datatype CharClass = LowerLetter | UpperLetter | Digit

  predicate InClass(c: char, cls: CharClass)
  {
    match cls
    case LowerLetter => IsAsciiLower(c)
    case UpperLetter => IsAsciiUpper(c)
    case Digit => IsAsciiDigit(c)
  }

  /** A character of the class at `q`. */
  predicate ClassAt(s: string, q: int, cls: CharClass)
  {
    0 <= q < |s| && InClass(s[q], cls)
  }

  /** No line terminator from `p` up to, not including, `q`. */
  predicate NoBreak(s: string, p: int, q: int)
  {
    forall k | p <= k < q && 0 <= k < |s| :: !IsLineTerminator(s[k])
  }

  /** `(?=.*[cls])` at position `p`: a character of the class follows on the same line. */
  predicate AheadOnLine(s: string, p: nat, cls: CharClass)
  {
    exists q | p <= q < |s| :: ClassAt(s, q, cls) && NoBreak(s, p, q)
  }

  /**
   * `/(?=.*[a-z])(?=.*[A-Z])(?=.*\d)/.test(s)`: some position from which a lower-case letter, an
   * upper-case letter and a digit all follow without crossing a line terminator (`.` stops at one).
   */
  predicate Composed(s: string)
  {
    exists p | 0 <= p <= |s| :: AheadOnLine(s, p, LowerLetter) && AheadOnLine(s, p, UpperLetter) && AheadOnLine(s, p, Digit)
  }

  predicate Has(s: string, cls: CharClass)
  {
    exists q | 0 <= q < |s| :: ClassAt(s, q, cls)
  }

  /** On a single line the lookaheads say plainly: a lower-case letter, an upper-case letter and a digit. */
  lemma ComposedSingleLine(s: string)
    requires NoBreak(s, 0, |s|)
    ensures Composed(s) <==> Has(s, LowerLetter) && Has(s, UpperLetter) && Has(s, Digit)
  {
    if Has(s, LowerLetter) && Has(s, UpperLetter) && Has(s, Digit) {
      var a :| 0 <= a < |s| && ClassAt(s, a, LowerLetter);
      var b :| 0 <= b < |s| && ClassAt(s, b, UpperLetter);
      var c :| 0 <= c < |s| && ClassAt(s, c, Digit);
      assert NoBreak(s, 0, a) && NoBreak(s, 0, b) && NoBreak(s, 0, c);
      assert AheadOnLine(s, 0, LowerLetter) && AheadOnLine(s, 0, UpperLetter) && AheadOnLine(s, 0, Digit);
    }
    if Composed(s) {
      var p :| 0 <= p <= |s| && AheadOnLine(s, p, LowerLetter) && AheadOnLine(s, p, UpperLetter) && AheadOnLine(s, p, Digit);
      var a :| p <= a < |s| && ClassAt(s, a, LowerLetter) && NoBreak(s, p, a);
      var b :| p <= b < |s| && ClassAt(s, b, UpperLetter) && NoBreak(s, p, b);
      var c :| p <= c < |s| && ClassAt(s, c, Digit) && NoBreak(s, p, c);
    }
  }

  /** The three kinds split over two lines do not satisfy the lookaheads. */
  lemma ComposedNeedsOneLine()
    ensures var s := "a\nA1"; Has(s, LowerLetter) && Has(s, UpperLetter) && Has(s, Digit) && !Composed(s)
  {
    var s := "a\nA1";
    assert ClassAt(s, 0, LowerLetter) && ClassAt(s, 2, UpperLetter) && ClassAt(s, 3, Digit);
    forall p | 0 <= p <= |s|
      ensures !(AheadOnLine(s, p, LowerLetter) && AheadOnLine(s, p, UpperLetter) && AheadOnLine(s, p, Digit))
    {
      if p <= 1 {
        assert !AheadOnLine(s, p, UpperLetter) by {
          forall q | p <= q < |s| && ClassAt(s, q, UpperLetter)
            ensures !NoBreak(s, p, q)
          {
            assert q == 2 && IsLineTerminator(s[1]);
          }
        }
      } else {
        assert !AheadOnLine(s, p, LowerLetter) by {
          forall q | p <= q < |s| ensures !ClassAt(s, q, LowerLetter) {
            assert q == 2 || q == 3;
          }
        }
      }
    }
  }

  /** The password rule, checked in the order empty, length, composition. */
  function PasswordError(password: string): (r: Option<string>)
    ensures r.None? <==> |password| >= MinPasswordLength && Composed(password)
    ensures password == "" <==> r == Some(PasswordRequired)
    ensures 0 < |password| < MinPasswordLength <==> r == Some(PasswordShort)
    ensures |password| >= MinPasswordLength && !Composed(password) ==> r == Some(PasswordWeak)
    ensures r.Some? ==> r.value == PasswordRequired || r.value == PasswordShort || r.value == PasswordWeak
  {
    if password == "" then Some(PasswordRequired)
    else if |password| < MinPasswordLength then Some(PasswordShort)
    else if !Composed(password) then Some(PasswordWeak)
    else None
  }

  /** The confirmation rule: required, then equal to the password. */
  function ConfirmError(password: string, confirm: string): (r: Option<string>)
    ensures r.None? <==> confirm != "" && confirm == password
    ensures confirm == "" <==> r == Some(ConfirmRequired)
    ensures confirm != "" && confirm != password ==> r == Some(ConfirmMismatch)
    ensures r.Some? ==> r.value == ConfirmRequired || r.value == ConfirmMismatch
  {
    if confirm == "" then Some(ConfirmRequired)
    else if password != confirm then Some(ConfirmMismatch)
    else None
  }

  /** A form the rules accept, stated field by field without the messages. */
  predicate Acceptable(d: RegisterFormData)
  {
    && |Trim(d.firstName)| >= MinNameLength
    && |Trim(d.lastName)| >= MinNameLength
    && Validation.EmailPattern(d.email)
    && |d.password| >= MinPasswordLength && Composed(d.password)
    && d.confirmPassword == d.password
    && d.acceptTerms
  }

  /**
   * The record `validateForm` builds: each field's rule in turn, the terms box required, no
   * `general` entry. It is empty exactly when the form is acceptable.
   */
  function FormErrors(d: RegisterFormData): (r: RegisterErrors)
    ensures r.general == None
    ensures r.acceptTerms.None? <==> d.acceptTerms
    ensures r == NoErrors <==> Acceptable(d)
  {
    RegisterErrors(
      NameError(d.firstName, FirstNameRequired, FirstNameShort),
      NameError(d.lastName, LastNameRequired, LastNameShort),
      EmailError(d.email), PasswordError(d.password),
      ConfirmError(d.password, d.confirmPassword),
      if d.acceptTerms then None else Some(TermsRequired), None)
  }

  /** A password the registration form accepts also passes the login password rule. */
  lemma RegisterPasswordPassesLogin(password: string)
    requires PasswordError(password).None?
    ensures Validation.ValidatePassword(password).isValid
  {
  }

  /**
   * On a non-empty email the registration rule and the login validator agree; an email of white
   * space only is "required" for the login validator but "not valid" here.
   */
  lemma EmailRulesAgree(email: string)
    requires email != ""
    ensures EmailError(email).None? <==> Validation.ValidateEmail(email).isValid
    ensures AllSpace(email) ==>
              EmailError(email) == Some(EmailInvalid) && Validation.ValidateEmail(email).message == Some(Validation.EmailRequired)
  {
    if AllSpace(email) && Validation.EmailPattern(email) {
      Validation.EmailPatternHasNoSpace(email);
    }
  }

  /** The state of one `useRegisterForm` instance. */
  class RegisterFormState {
    var formData: RegisterFormData
    var errors: RegisterErrors
    var loading: bool
    var showPassword: bool
    var showConfirmPassword: bool

    /** The initial state: empty fields, terms not accepted, no errors, nothing shown or loading. */
    constructor ()
      ensures formData == EmptyForm && errors == NoErrors
      ensures !loading && !showPassword && !showConfirmPassword
    {
      formData := EmptyForm;
      errors := NoErrors;
      loading := false;
      showPassword := false;
      showConfirmPassword := false;
    }

    /**
     * `validateForm`: every field rule is checked in order and its error, if any, recorded; the
     * record replaces the errors, and the result says whether the form is acceptable.
     */
    method ValidateForm() returns (ok: bool)
      modifies this
      ensures formData == old(formData) && loading == old(loading)
      ensures showPassword == old(showPassword) && showConfirmPassword == old(showConfirmPassword)
      ensures errors == FormErrors(formData)
      ensures ok <==> errors == NoErrors
      ensures ok <==> Acceptable(formData)
    {
      errors := FormErrors(formData);
      ok := errors == NoErrors;
    }

    /**
     * `handleInputChange(field)` with the input's `value` and `checked`: only that field changes
     * (to `checked` for the terms box), and its error, when set, is cleared; nothing else changes.
     */
    method HandleInputChange(field: Field, value: string, checked: bool)
      modifies this
      ensures formData == WithInput(old(formData), field, value, checked)
      ensures errors == if ErrorSet(old(errors), field) then ClearError(old(errors), field) else old(errors)
      ensures loading == old(loading)
      ensures showPassword == old(showPassword) && showConfirmPassword == old(showConfirmPassword)
    {
      formData := WithInput(formData, field, value, checked);
      if ErrorSet(errors, field) {
        errors := ClearError(errors, field);
      }
    }

    /**
     * `handleSubmit`: an invalid form only records its errors. A valid one clears the errors and
     * ends not loading; when the navigation afterwards fails, the general error is recorded.
     */
    method HandleSubmit(navigationFails: bool) returns (submitted: bool)
      modifies this
      ensures submitted <==> Acceptable(old(formData))
      ensures formData == old(formData)
      ensures !submitted ==> loading == old(loading) && errors == FormErrors(old(formData)) && errors != NoErrors
      ensures showPassword == old(showPassword) && showConfirmPassword == old(showConfirmPassword)
      ensures submitted ==> !loading
      ensures submitted ==> errors == if navigationFails then NoErrors.(general := Some(SubmitFailed)) else NoErrors
    {
      submitted := ValidateForm();
      if !submitted {
        return;
      }
      loading := true;
      errors := NoErrors;
      if navigationFails {
        errors := NoErrors.(general := Some(SubmitFailed));
      }
      loading := false;
    }

    method ToggleShowPassword()
      modifies this
      ensures showPassword == !old(showPassword)
      ensures showConfirmPassword == old(showConfirmPassword)
      ensures formData == old(formData) && errors == old(errors) && loading == old(loading)
    {
      showPassword := !showPassword;
    }

    method ToggleShowConfirmPassword()
      modifies this
      ensures showConfirmPassword == !old(showConfirmPassword)
      ensures showPassword == old(showPassword)
      ensures formData == old(formData) && errors == old(errors) && loading == old(loading)
    {
      showConfirmPassword := !showConfirmPassword;
    }

    /** `buttonText`: the in-progress label exactly while loading. */
    function ButtonText(): (r: string)
      reads this
      ensures r == CreatingText <==> loading
      ensures r == CreateText <==> !loading
    {
      if loading then CreatingText else CreateText
    }
  }

  /** `errors[field]` is truthy: defined and non-empty. */
  predicate ErrorSet(errors: RegisterErrors, f: Field)
  {
    ErrorOf(errors, f).Some? && ErrorOf(errors, f).value != ""
  }
}
