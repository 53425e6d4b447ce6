/**
 * The sign-up page: the submit handler, which gathers one error per failed
 * check under a fixed key and only registers when there is none, and the
 * change handler, which writes the edited field and clears its error.
 */
module SignupPage {
  import opened Js
  import opened Validation

  const EmailMessage: string := "Please enter a valid email address"
  const MismatchMessage: string := "Passwords do not match"
  const TermsMessage: string := "You must accept the Terms of Service and Privacy Policy"
  const RegistrationFailed: string := "Registration failed. Please try again."
  const UnexpectedError: string := "An unexpected error occurred. Please try again."

  /** The names of the four text inputs. */
  const TextFields: set<string> := {"fullName", "email", "password", "confirmPassword"}

  /** `formData`: the four text inputs and the terms checkbox. */
  datatype SignupForm = SignupForm(fullName: string, email: string, password: string,
                                   confirmPassword: string, termsAccepted: bool)

  /** The form before anything is typed. */
  const InitialForm := SignupForm("", "", "", "", false)

  /** The value an input reads from the form, by the input's name. */
  function InputValue(form: SignupForm, name: string): Option<Value>
  {
    if name == "fullName" then Some(Str(form.fullName))
    else if name == "email" then Some(Str(form.email))
    else if name == "password" then Some(Str(form.password))
    else if name == "confirmPassword" then Some(Str(form.confirmPassword))
    else if name == "termsAccepted" then Some(Bool(form.termsAccepted))
    else None
  }

  /** `{...formData, [name]: type === 'checkbox' ? checked : value}` for one of
      the page's inputs: that input reads the new value, every other keeps its own. */
  function Edited(form: SignupForm, name: string, value: string, checked: bool): (r: SignupForm)
    requires name in TextFields || name == "termsAccepted"
    ensures name in TextFields ==> InputValue(r, name) == Some(Str(value))
    ensures name == "termsAccepted" ==> InputValue(r, name) == Some(Bool(checked))
    ensures forall other :: other != name ==> InputValue(r, other) == InputValue(form, other)
  {
    if name == "fullName" then form.(fullName := value)
    else if name == "email" then form.(email := value)
    else if name == "password" then form.(password := value)
    else if name == "confirmPassword" then form.(confirmPassword := value)
    else form.(termsAccepted := checked)
  }

  /** Every check of the form passes. */
  predicate Acceptable(fullName: string, email: string, password: string, confirmPassword: string, termsAccepted: bool)
  {
    ValidateName(fullName).isValid && IsValidEmail(email) && FirstFailedRule(password) == None &&
    password == confirmPassword && termsAccepted
  }

  /** The `errors` object of `handleSubmit`: each of its five keys is either
      missing (`None`) or holds a message. */
  datatype SignupErrors = SignupErrors(
    fullName: Option<string>, email: Option<string>, password: Option<string>,
    confirmPassword: Option<string>, terms: Option<string>)

  /** `Object.keys(errors).length > 0` */
  predicate AnyError(e: SignupErrors)
  {
    e.fullName.Some? || e.email.Some? || e.password.Some? || e.confirmPassword.Some? || e.terms.Some?
  }

  /** The errors the five checks call for: the name check's own message, the
      email message, the first broken password rule, the mismatch and the terms
      message. */
  function ExpectedErrors(fullName: string, email: string, password: string, confirmPassword: string, termsAccepted: bool): (r: SignupErrors)
    ensures r.fullName.Some? <==> !ValidateName(fullName).isValid
    ensures r.email.Some? <==> !IsValidEmail(email)
    ensures r.password.Some? <==> (Utf16Length(password) < 8 || !HasUpper(password) || !HasLower(password) || !HasDigit(password))
    ensures r.confirmPassword.Some? <==> password != confirmPassword
    ensures r.terms.Some? <==> !termsAccepted
    ensures !AnyError(r) <==> Acceptable(fullName, email, password, confirmPassword, termsAccepted)
  {
    SignupErrors(
      ValidateName(fullName).error,
      if IsValidEmail(email) then None else Some(EmailMessage),
      FirstFailedRule(password),
      if password == confirmPassword then None else Some(MismatchMessage),
      if termsAccepted then None else Some(TermsMessage))
  }

  /** The errors a well-formed form calls for; there is none exactly when every
      check passes. */
  function FormErrors(form: SignupForm): (r: SignupErrors)
    ensures !AnyError(r) <==> Acceptable(form.fullName, form.email, form.password, form.confirmPassword, form.termsAccepted)
  {
    ExpectedErrors(form.fullName, form.email, form.password, form.confirmPassword, form.termsAccepted)
  }

  /**
   * The `errors` object of `handleSubmit`: it runs the four validators and the
   * terms check, and the password key holds the first message
   * `validatePassword` reports.
   */
  method CollectErrors(form: SignupForm) returns (errors: SignupErrors)
    ensures errors == FormErrors(form)
  {
    var nameError, emailError, passwordError, confirmError, termsError := None, None, None, None, None;
    var nameValidation := ValidateName(form.fullName);
    if !nameValidation.isValid {
      nameError := nameValidation.error;
    }
    if !IsValidEmail(form.email) {
      emailError := Some(EmailMessage);
    }
    var passwordValidation := ValidatePassword(form.password);
    FirstErrorIsFirstFailedRule(form.password, passwordValidation);
    if !passwordValidation.isValid {
      passwordError := Some(passwordValidation.errors[0]);
    }
    if !DoPasswordsMatch(form.password, form.confirmPassword) {
      confirmError := Some(MismatchMessage);
    }
    if !form.termsAccepted {
      termsError := Some(TermsMessage);
    }
    errors := SignupErrors(nameError, emailError, passwordError, confirmError, termsError);
  }


  /** `validationErrors[name]`: the field has an error that is shown. */
  predicate HasError(errors: map<string, Option<string>>, name: string)
  {
    name in errors && StrTruthy(errors[name])
  }

  /** The keys of the `errors` object. */
  const ErrorKeys: set<string> := {"fullName", "email", "password", "confirmPassword", "terms"}

  /** The entry of the `errors` object under a key. */
  function Field(e: SignupErrors, key: string): Option<string>
  {
    if key == "fullName" then e.fullName
    else if key == "email" then e.email
    else if key == "password" then e.password
    else if key == "confirmPassword" then e.confirmPassword
    else if key == "terms" then e.terms
    else None
  }

  /** `setValidationErrors(errors)`: the object as the page stores it, with a key
      only for the checks that failed. */
  function ErrorMap(e: SignupErrors): (r: map<string, Option<string>>)
    ensures r.Keys <= ErrorKeys
    ensures forall k :: k in r ==> r[k] == Field(e, k) && r[k].Some?
  {
    map k | k in ErrorKeys && Field(e, k).Some? :: Field(e, k)
  }

  /** The stored map has a key exactly for each failed check, holding that
      check's message, so it is empty exactly when nothing failed. */
  lemma ErrorMapKeys(e: SignupErrors)
    ensures ("fullName" in ErrorMap(e) <==> e.fullName.Some?) && ("email" in ErrorMap(e) <==> e.email.Some?)
    ensures ("password" in ErrorMap(e) <==> e.password.Some?) && ("terms" in ErrorMap(e) <==> e.terms.Some?)
    ensures "confirmPassword" in ErrorMap(e) <==> e.confirmPassword.Some?
    ensures "fullName" in ErrorMap(e) ==> ErrorMap(e)["fullName"] == e.fullName
    ensures "password" in ErrorMap(e) ==> ErrorMap(e)["password"] == e.password
    ensures "terms" in ErrorMap(e) ==> ErrorMap(e)["terms"] == e.terms
    ensures ErrorMap(e) == map[] <==> !AnyError(e)
  {
    assert "email"[0] == 'e' && "terms"[0] == 't' && "password"[0] == 'p' && "confirmPassword"[0] == 'c';
    if ErrorMap(e) == map[] {
      assert "fullName" !in ErrorMap(e) && "email" !in ErrorMap(e) && "password" !in ErrorMap(e);
      assert "confirmPassword" !in ErrorMap(e) && "terms" !in ErrorMap(e);
    }
  }

  /** Every error in the map is shown. */
  predicate ShowsAll(m: map<string, Option<string>>)
  {
    forall k :: k in m ==> HasError(m, k)
  }

  /** A stored message is shown unless it is empty. */
  lemma ErrorMapShown(e: SignupErrors)
    requires e.fullName.None? || StrTruthy(e.fullName)
    requires e.email.None? || StrTruthy(e.email)
    requires e.password.None? || StrTruthy(e.password)
    requires e.confirmPassword.None? || StrTruthy(e.confirmPassword)
    requires e.terms.None? || StrTruthy(e.terms)
    ensures ShowsAll(ErrorMap(e))
  {
    forall k | k in ErrorMap(e)
      ensures StrTruthy(Field(e, k))
    {
    }
  }

  /** Every message the checks can store is a non-empty string, so every stored
      error is shown. */
  lemma ExpectedErrorsShown(fullName: string, email: string, password: string, confirmPassword: string, termsAccepted: bool)
    ensures ShowsAll(ErrorMap(ExpectedErrors(fullName, email, password, confirmPassword, termsAccepted)))
  {
    var e := ExpectedErrors(fullName, email, password, confirmPassword, termsAccepted);
    assert |NameTooShort| > 0 && |NameTooLong| > 0;
    assert |LengthMessage| > 0 && |UppercaseMessage| > 0 && |LowercaseMessage| > 0 && |DigitMessage| > 0;
    ErrorMapShown(e);
  }

  /** The payload `register` is called with. */
  datatype Registration = Registration(name: string, email: string, password: string)

  /** `{name: fullName, email, password}`: the confirmation and the checkbox stay behind. */
  function Payload(form: SignupForm): (r: Registration)
    ensures r.name == form.fullName && r.email == form.email && r.password == form.password
  {
    Registration(form.fullName, form.email, form.password)
  }

  /** How `register` came back: its `success` and `error`, or a thrown error. */
  datatype RegisterOutcome = Registered | NotRegistered(error: Option<string>) | RegisterThrew

  /** The error map after `handleChange` on input `name`, as written: the key
      cleared is the input's own name. */
  function ClearedErrors(errors: map<string, Option<string>>, name: string): (r: map<string, Option<string>>)
    ensures HasError(errors, name) ==> r == errors[name := None]
    ensures !HasError(errors, name) ==> r == errors
  {
    if HasError(errors, name) then errors[name := None] else errors
  }

  /** The checkbox is named `termsAccepted`, but its error is stored under
      `terms`; ticking the box never removes the terms error. */
  lemma TermsErrorSurvivesTick(errors: map<string, Option<string>>)
    requires HasError(errors, "terms")
    ensures HasError(ClearedErrors(errors, "termsAccepted"), "terms")
  {
  }

  /** The key under which an input's error is stored. */
  function ErrorKey(name: string): (r: string)
    ensures name == "termsAccepted" ==> r == "terms"
    ensures name != "termsAccepted" ==> r == name
  {
    if name == "termsAccepted" then "terms" else name
  }

  /** The error map after `handleChange` as evidently intended: the input's own
      error is the one cleared. */
  function ClearedErrorsFixed(errors: map<string, Option<string>>, name: string): (r: map<string, Option<string>>)
    ensures HasError(errors, ErrorKey(name)) ==> r == errors[ErrorKey(name) := None]
    ensures !HasError(errors, ErrorKey(name)) ==> r == errors
  {
    if HasError(errors, ErrorKey(name)) then errors[ErrorKey(name) := None] else errors
  }

  /** Editing any input of the form, the checkbox included, leaves no error shown
      for that input, and every other input's error as it was. */
  lemma EditClearsOwnError(errors: map<string, Option<string>>, name: string, other: string)
    requires name in TextFields || name == "termsAccepted"
    requires other != ErrorKey(name)
    ensures !HasError(ClearedErrorsFixed(errors, name), ErrorKey(name))
    ensures other in errors ==> (other in ClearedErrorsFixed(errors, name) &&
      ClearedErrorsFixed(errors, name)[other] == errors[other])
    ensures !HasError(ClearedErrorsFixed(errors, "termsAccepted"), "terms")
  {
  }

  function RegisterError(outcome: RegisterOutcome, before: string): (r: string)
    ensures outcome.Registered? ==> r == before
    ensures outcome.NotRegistered? && StrTruthy(outcome.error) ==> r == outcome.error.value
    ensures outcome.NotRegistered? && !StrTruthy(outcome.error) ==> r == RegistrationFailed
    ensures outcome.RegisterThrew? ==> r == UnexpectedError
    ensures !outcome.Registered? ==> r != ""
  {
    match outcome
    case Registered => before
    case NotRegistered(message) => if StrTruthy(message) then message.value else RegistrationFailed
    case RegisterThrew => UnexpectedError
  }

  class SignupState {
    var formData: SignupForm
    var validationErrors: map<string, Option<string>>
    var error: string
    var loading: bool

    constructor ()
      ensures formData == InitialForm
      ensures validationErrors == map[] && error == "" && !loading
    {
      formData := InitialForm;
      validationErrors := map[];
      error := "";
      loading := false;
    }

    /**
     * `handleSubmit`, given how `register` would come back. Nothing is sent
     * unless every check passes; otherwise the errors are shown under their keys.
     */
    method HandleSubmit(outcome: RegisterOutcome) returns (sent: Option<Registration>, navigated: bool)
      modifies this
      ensures formData == old(formData)
      ensures sent.None? ==> loading == old(loading)
      ensures sent.Some? ==> !loading
      ensures sent.Some? <==> !AnyError(FormErrors(formData))
      ensures sent.Some? ==> sent.value == Payload(formData)
      ensures sent.None? ==> !navigated && error == ""
      ensures sent.None? ==> validationErrors == ErrorMap(FormErrors(formData))
      ensures sent.Some? ==> validationErrors == map[]
      ensures sent.Some? ==> (navigated <==> outcome.Registered?)
      ensures sent.Some? ==> error == RegisterError(outcome, "")
    {
      error := "";
      validationErrors := map[];
      navigated := false;
      var errors := CollectErrors(formData);
      if AnyError(errors) {
        validationErrors := ErrorMap(errors);
        return None, false;
      }
      sent := Some(Payload(formData));
      navigated := Register(outcome);
    }

    method Register(outcome: RegisterOutcome) returns (navigated: bool)
      modifies this
      ensures formData == old(formData) && validationErrors == old(validationErrors) && !loading
      ensures navigated <==> outcome.Registered?
      ensures error == RegisterError(outcome, old(error))
    {
      loading := true;
      navigated := false;
      match outcome {
        case Registered =>
          navigated := true;
        case NotRegistered(message) =>
          error := if StrTruthy(message) then message.value else RegistrationFailed;
        case RegisterThrew =>
          error := UnexpectedError;
      }
      loading := false;
    }

    /**
     * `handleChange` for an event from one of the page's inputs: a text input
     * with its `value`, or the checkbox with its `checked`. Only that field
     * changes. Its own error is cleared as `ClearedErrorsFixed` says, under the
     * key the error was stored with; `ClearedErrors` is the source's lookup by
     * input name, which misses the checkbox.
     */
    method HandleChange(name: string, value: string, isCheckbox: bool, checked: bool)
      requires (name in TextFields && !isCheckbox) || (name == "termsAccepted" && isCheckbox)
      modifies this
      ensures formData == Edited(old(formData), name, value, checked)
      ensures validationErrors == ClearedErrorsFixed(old(validationErrors), name)
      ensures error == old(error) && loading == old(loading)
    {
      formData := Edited(formData, name, value, checked);
      var key := ErrorKey(name);
      if HasError(validationErrors, key) {
        validationErrors := validationErrors[key := None];
      }
    }
  }
}
