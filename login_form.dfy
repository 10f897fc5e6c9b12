/**
 * The login form hook: email formatting on input, per-field error clearing, validation through
 * the login validator, the mapping of a failed attempt to an error record, reset and the derived
 * flags.
 */
module LoginForm {
  import opened Wrappers
  import opened JsString
  import Validation
  import Formatters

  const InvalidCredentials := "Email o contraseña incorrectos"
  const UserNotFound := "No existe una cuenta con este email"
  const ServerError := "Error del servidor. Intenta nuevamente."
  const ButtonLoadingText := "Iniciando sesión..."
  const ButtonDefaultText := "Iniciar Sesión"
  /** What a failed attempt's message is searched for, and the message of a thrown non-`Error`. */
  const CredentialsPhrase := "Credenciales inválidas"
  const NotFoundPhrase := "Usuario no encontrado"
  const UnknownError := "Error desconocido"

  datatype LoginFormData = LoginFormData(email: string, password: string, rememberMe: bool)

  const EmptyForm := LoginFormData("", "", false)

  datatype Field = Email | Password | RememberMe

  /**
   * One property of the error record (`email?`, `password?` or `general?`): absent, present but
   * set to `undefined`, or holding a message. A property set to `undefined` still counts as a key.
   */
  datatype Slot = Absent | Undefined | Message(text: string)

  /** The error record; `rememberMe` is not one of its properties, so it can never hold an error. */
  datatype Errors = Errors(email: Slot, password: Slot, general: Slot)

  const NoErrors := Errors(Absent, Absent, Absent)

  /** What the attempt threw: an `Error` with its message, or some other value. */
  datatype Thrown = ErrorObject(message: string) | OtherValue

  /** How the attempt after a valid submission ended. */
  datatype Outcome = Succeeded | Threw(thrown: Thrown)

  function ThrownMessage(t: Thrown): string
  {
    match t
    case ErrorObject(m) => m
    case OtherValue => UnknownError
  }

  /** A slot that holds a key. */
  predicate HasKey(s: Slot) { !s.Absent? }

  /** The number of keys, as `Object.keys(errors).length` counts them. */
  function KeyCount(e: Errors): (n: nat)
    ensures n == 0 <==> e == NoErrors
    ensures n <= 3
  {
    (if HasKey(e.email) then 1 else 0) + (if HasKey(e.password) then 1 else 0) + (if HasKey(e.general) then 1 else 0)
  }

  /**
   * The error record after a failed attempt, first match wins: the credentials phrase gives the
   * general invalid-credentials error, the not-found phrase the email error, anything else the
   * general server error. There is always exactly one key, and it holds a message.
   */
  function FailureErrors(message: string): (r: Errors)
    ensures KeyCount(r) == 1
    ensures Includes(message, CredentialsPhrase) ==> r == NoErrors.(general := Message(InvalidCredentials))
    ensures !Includes(message, CredentialsPhrase) && Includes(message, NotFoundPhrase) ==> r == NoErrors.(email := Message(UserNotFound))
    ensures !Includes(message, CredentialsPhrase) && !Includes(message, NotFoundPhrase) ==> r == NoErrors.(general := Message(ServerError))
  {
    if Includes(message, CredentialsPhrase) then NoErrors.(general := Message(InvalidCredentials))
    else if Includes(message, NotFoundPhrase) then NoErrors.(email := Message(UserNotFound))
    else NoErrors.(general := Message(ServerError))
  }

  /** A thrown value that is not an `Error` always ends as the server error. */
  lemma NonErrorIsServerError()
    ensures FailureErrors(ThrownMessage(OtherValue)) == NoErrors.(general := Message(ServerError))
  {
    IncludesNotLonger(UnknownError, CredentialsPhrase);
    IncludesNotLonger(UnknownError, NotFoundPhrase);
  }

  /** A message exactly the credentials phrase maps to invalid credentials, whatever else it might match. */
  lemma CredentialsMessage()
    ensures FailureErrors(CredentialsPhrase) == NoErrors.(general := Message(InvalidCredentials))
  {
    assert OccursAt(CredentialsPhrase, CredentialsPhrase, 0);
  }

  /** The error record a valid submission ends with: empty exactly when the attempt succeeded. */
  function AttemptErrors(outcome: Outcome): (r: Errors)
    ensures r == NoErrors <==> outcome.Succeeded?
    ensures outcome.Threw? ==> r == FailureErrors(ThrownMessage(outcome.thrown))
  {
    match outcome
    case Succeeded => NoErrors
    case Threw(t) => FailureErrors(ThrownMessage(t))
  }

  function AsSlot(m: Option<string>): Slot
  {
    match m
    case None => Absent
    case Some(text) => Message(text)
  }

  /** The validator's errors as the form's record: the same keys, each holding its message, and no `general`. */
  function AsRecord(v: Validation.LoginErrors): (r: Errors)
    ensures HasKey(r.email) <==> v.email.Some?
    ensures HasKey(r.password) <==> v.password.Some?
    ensures v.email.Some? ==> r.email == Message(v.email.value)
    ensures v.password.Some? ==> r.password == Message(v.password.value)
    ensures r.general == Absent
  {
    Errors(AsSlot(v.email), AsSlot(v.password), Absent)
  }

  /** `{...formData, [field]: value}`, the email passing through `formatEmail`, the check box giving `checked`. */
  function WithInput(d: LoginFormData, f: Field, value: string, checked: bool): (r: LoginFormData)
    ensures r.email == if f == Email then Formatters.FormatEmail(value) else d.email
    ensures r.password == if f == Password then value else d.password
    ensures r.rememberMe == if f == RememberMe then checked else d.rememberMe
  {
    match f
    case Email => d.(email := Formatters.FormatEmail(value))
    case Password => d.(password := value)
    case RememberMe => d.(rememberMe := checked)
  }

  /** `errors[field]` is truthy: the field has a property holding a non-empty message. */
  predicate ErrorSet(errors: Errors, f: Field)
  {
    match f
    case Email => errors.email.Message? && errors.email.text != ""
    case Password => errors.password.Message? && errors.password.text != ""
    case RememberMe => false
  }

  /**
   * The error record after editing field `f`: a set error on it becomes `undefined` under the same
   * key; every other property, and which keys exist, stay as they were.
   */
  function ClearedOn(errors: Errors, f: Field): (r: Errors)
    ensures HasKey(r.email) == HasKey(errors.email)
    ensures HasKey(r.password) == HasKey(errors.password)
    ensures r.general == errors.general
    ensures r.email == if f == Email && ErrorSet(errors, Email) then Undefined else errors.email
    ensures r.password == if f == Password && ErrorSet(errors, Password) then Undefined else errors.password
    ensures !ErrorSet(r, f)
    ensures KeyCount(r) == KeyCount(errors)
  {
    if !ErrorSet(errors, f) then errors
    else match f
      case Email => errors.(email := Undefined)
      case Password => errors.(password := Undefined)
  }

  /** The state of one `useLoginForm` instance. */
  class LoginFormState {
    var formData: LoginFormData
    var errors: Errors
    var loading: bool
    var showPassword: bool

    /** The initial state: empty form, no errors, not loading, password hidden. */
    constructor ()
      ensures formData == EmptyForm && errors == NoErrors && !loading && !showPassword
    {
      formData := EmptyForm;
      errors := NoErrors;
      loading := false;
      showPassword := false;
    }

    /** `isFormValid`: no error key at all, cleared ones included, and both text fields filled. */
    function IsFormValid(): (r: bool)
      reads this
      ensures r <==> errors == NoErrors && formData.email != "" && formData.password != ""
    {
      KeyCount(errors) == 0 && formData.email != "" && formData.password != ""
    }

    /** `buttonText`: the loading label exactly while loading. */
    function ButtonText(): (r: string)
      reads this
      ensures r == ButtonLoadingText <==> loading
      ensures r == ButtonDefaultText <==> !loading
    {
      if loading then ButtonLoadingText else ButtonDefaultText
    }

    /**
     * `handleInputChange(field)`: only that field changes, the email formatted; a set error on the
     * field becomes `undefined` under the same key.
     */
    method HandleInputChange(field: Field, value: string, checked: bool)
      modifies this
      ensures formData == WithInput(old(formData), field, value, checked)
      ensures errors == ClearedOn(old(errors), field)
      ensures loading == old(loading) && showPassword == old(showPassword)
    {
      formData := WithInput(formData, field, value, checked);
      if ErrorSet(errors, field) {
        errors := ClearedOn(errors, field);
      }
    }

    /**
     * `validateForm`: the errors become exactly the login validator's errors, and the result is its
     * verdict; a form it accepts is a valid form.
     */
    method ValidateForm() returns (ok: bool)
      modifies this
      ensures formData == old(formData) && loading == old(loading) && showPassword == old(showPassword)
      ensures var v := Validation.ValidateLoginForm(formData.email, formData.password);
              errors == AsRecord(v.errors) && ok == v.isValid
      ensures ok ==> IsFormValid()
    {
      var v := Validation.ValidateLoginForm(formData.email, formData.password);
      errors := AsRecord(v.errors);
      ok := v.isValid;
      if ok {
        Validation.AcceptedLoginFilled(formData.email, formData.password);
      }
    }

    /**
     * `handleSubmit`: an invalid form records its errors and returns without loading. A valid one
     * clears the errors; a failed attempt records the mapped error; loading always ends false.
     */
    method HandleSubmit(outcome: Outcome) returns (submitted: bool)
      modifies this
      ensures formData == old(formData) && showPassword == old(showPassword)
      ensures var v := Validation.ValidateLoginForm(formData.email, formData.password);
              (submitted <==> v.isValid) && (!submitted ==> loading == old(loading) && errors == AsRecord(v.errors))
      ensures submitted ==> !loading
      ensures submitted ==> errors == AttemptErrors(outcome)
    {
      ghost var v := Validation.ValidateLoginForm(formData.email, formData.password);
      submitted := ValidateForm();
      assert errors == AsRecord(v.errors) && submitted == v.isValid;
      if submitted {
        loading := true;
        errors := AttemptErrors(outcome);
        loading := false;
      }
    }

    method ToggleShowPassword()
      modifies this
      ensures showPassword == !old(showPassword)
      ensures formData == old(formData) && errors == old(errors) && loading == old(loading)
    {
      showPassword := !showPassword;
    }

    /** `resetForm`: back to the initial state. */
    method ResetForm()
      modifies this
      ensures formData == EmptyForm && errors == NoErrors && !loading && !showPassword
      ensures !IsFormValid()
    {
      formData := EmptyForm;
      errors := NoErrors;
      loading := false;
      showPassword := false;
    }
  }
}
