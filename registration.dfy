/**
 * The registration page: the per-field validator, the submit handler that runs
 * it before calling the backend, and the mapping of a 422 reply to field errors.
 */
module Registration {
  import opened Wrappers
  import opened Types
  import opened Text

  const NameRequired := "Name is required."
  const EmailRequired := "Email is required."
  const EmailInvalid := "Enter a valid email address."
  const PasswordRequired := "Password is required."
  const PasswordTooShort := "Password must be at least 6 characters."
  const ConfirmationRequired := "Please confirm your password."
  const PasswordsDiffer := "Passwords do not match."
  const RegistrationFailed := "Registration failed. Please try again."

  /** The minimum password length the form demands. */
  const MinPasswordLength := 6

  /** One optional message per form field; an absent message means the field passed. */
  datatype FieldErrors = FieldErrors(
    name: Option<string>,
    email: Option<string>,
    password: Option<string>,
    passwordConfirmation: Option<string>)
  {
    /** The form passed: no field carries a message. */
    predicate IsEmpty() {
      name.None? && email.None? && password.None? && passwordConfirmation.None?
    }
  }

  const NoErrors := FieldErrors(None, None, None, None)

  // ---------------------------------------------------------------------------
  // The e-mail pattern /^[^\s@]+@[^\s@]+\.[^\s@]+$/
  // ---------------------------------------------------------------------------

  /** The character class `[^\s@]`. */
  predicate IsAddressChar(c: char) {
    c != '@' && !IsWhitespace(c)
  }

  predicate AllAddressChars(s: string) {
    forall i :: 0 <= i < |s| ==> IsAddressChar(s[i])
  }

  /**
   * The pattern read off the regular expression: `s` splits at index `at` (the
   * '@') and index `dot` (the '.') into three non-empty runs of `[^\s@]`.
   */
  ghost predicate PatternSplit(s: string, at: int, dot: int) {
    && 0 < at && at + 1 < dot && dot + 1 < |s|
    && s[at] == '@' && s[dot] == '.'
    && AllAddressChars(s[..at])
    && AllAddressChars(s[at + 1..dot])
    && AllAddressChars(s[dot + 1..])
  }

  ghost predicate MatchesEmailPattern(s: string) {
    exists at, dot :: PatternSplit(s, at, dot)
  }

  /** No other index of `s` holds an '@'. */
  predicate OnlyAtSignAt(s: string, at: int) {
    forall j :: 0 <= j < |s| && j != at ==> s[j] != '@'
  }

  /**
   * The domain `s[at + 1..]` holds a '.' that is neither its first nor its
   * last character.
   */
  predicate HasInnerDotAfter(s: string, at: nat) {
    exists j :: at + 1 < j < |s| - 1 && s[j] == '.'
  }

  /**
   * The explicit check the validator runs: no whitespace, exactly one '@'
   * with a non-empty local part before it, and an inner '.' in the domain.
   */
  predicate IsValidEmail(s: string) {
    && !HasWhitespace(s)
    && exists at :: 0 < at < |s| && s[at] == '@' && OnlyAtSignAt(s, at) && HasInnerDotAfter(s, at)
  }

  /** The explicit check and the regular expression accept the same strings. */
  lemma EmailPatternIff(s: string)
    ensures IsValidEmail(s) <==> MatchesEmailPattern(s)
  {
    if IsValidEmail(s) {
      var at :| 0 < at < |s| && s[at] == '@' && OnlyAtSignAt(s, at) && HasInnerDotAfter(s, at);
      var dot :| at + 1 < dot < |s| - 1 && s[dot] == '.';
      assert forall j :: 0 <= j < |s| && j != at ==> IsAddressChar(s[j]);
      assert PatternSplit(s, at, dot);
    }
    if MatchesEmailPattern(s) {
      var at, dot :| PatternSplit(s, at, dot);
      forall j | 0 <= j < |s|
        ensures !IsWhitespace(s[j]) && (j != at ==> s[j] != '@')
      {
        if j < at {
          assert s[j] == s[..at][j];
        } else if at < j < dot {
          assert s[j] == s[at + 1..dot][j - at - 1];
        } else if dot < j {
          assert s[j] == s[dot + 1..][j - dot - 1];
        }
      }
      assert HasInnerDotAfter(s, at);
    }
  }

  /** A pattern match starts with a non-whitespace character, so it is never blank. */
  lemma MatchIsNotBlank(s: string)
    ensures MatchesEmailPattern(s) ==> !AllWhitespace(s)
  {
    if MatchesEmailPattern(s) {
      var at, dot :| PatternSplit(s, at, dot);
      assert s[0] == s[..at][0];
    }
  }

  // ---------------------------------------------------------------------------
  // validate
  // ---------------------------------------------------------------------------

  /** The form's frontend validation: one independent check per field. */
  function Validate(f: RegisterPayload): (e: FieldErrors)
    ensures e.name.Some? <==> AllWhitespace(f.name)
    ensures e.name.Some? ==> e.name.value == NameRequired
    ensures e.email == Some(EmailRequired) <==> AllWhitespace(f.email)
    ensures e.email.None? <==> MatchesEmailPattern(f.email)
    ensures e.email == Some(EmailInvalid) <==> !AllWhitespace(f.email) && !MatchesEmailPattern(f.email)
    ensures HasWhitespace(f.email) ==> e.email.Some?
    ensures e.password == Some(PasswordRequired) <==> f.password == []
    ensures e.password == Some(PasswordTooShort) <==> 0 < |f.password| < MinPasswordLength
    ensures e.password.None? <==> |f.password| >= MinPasswordLength
    ensures e.passwordConfirmation == Some(ConfirmationRequired) <==> f.passwordConfirmation == []
    ensures (e.passwordConfirmation == Some(PasswordsDiffer))
              == (f.passwordConfirmation != [] && f.passwordConfirmation != f.password)
    ensures e.passwordConfirmation.None? <==> f.passwordConfirmation != [] && f.passwordConfirmation == f.password
    ensures e.IsEmpty() <==>
              && !AllWhitespace(f.name)
              && MatchesEmailPattern(f.email)
              && |f.password| >= MinPasswordLength
              && f.passwordConfirmation == f.password
  {
    EmailPatternIff(f.email);
    MatchIsNotBlank(f.email);
    TrimEmptyIff(f.name);
    TrimEmptyIff(f.email);
    FieldErrors(
      name := if Trim(f.name) == [] then Some(NameRequired) else None,
      email :=
        if Trim(f.email) == [] then Some(EmailRequired)
        else if !IsValidEmail(f.email) then Some(EmailInvalid)
        else None,
      password :=
        if f.password == [] then Some(PasswordRequired)
        else if |f.password| < MinPasswordLength then Some(PasswordTooShort)
        else None,
      passwordConfirmation :=
        if f.passwordConfirmation == [] then Some(ConfirmationRequired)
        else if f.passwordConfirmation != f.password then Some(PasswordsDiffer)
        else None)
  }

  /** A password of exactly the minimum length passes, one character fewer does not. */
  lemma PasswordLengthBoundary(f: RegisterPayload)
    ensures |f.password| == MinPasswordLength ==> Validate(f).password.None?
    ensures |f.password| == MinPasswordLength - 1 ==> Validate(f).password == Some(PasswordTooShort)
  {
  }

  // ---------------------------------------------------------------------------
  // The 422 reply
  // ---------------------------------------------------------------------------

  /** `errors[key]?.[0]`: the first message the backend lists for a field, if any. */
  function FirstMessage(errors: map<string, seq<string>>, key: string): (m: Option<string>)
    ensures m.Some? <==> key in errors && errors[key] != []
    ensures m.Some? ==> m.value == errors[key][0]
  {
    if key in errors && errors[key] != [] then Some(errors[key][0]) else None
  }

  /** The field errors shown after a 422 reply: each field keeps only the backend's first message. */
  function BackendFieldErrors(errors: map<string, seq<string>>): (e: FieldErrors)
    ensures e.name.Some? <==> "name" in errors && errors["name"] != []
    ensures e.email.Some? <==> "email" in errors && errors["email"] != []
    ensures e.password.Some? <==> "password" in errors && errors["password"] != []
    ensures e.passwordConfirmation.Some?
              == ("password_confirmation" in errors && errors["password_confirmation"] != [])
    ensures e.name.Some? ==> e.name.value == errors["name"][0]
    ensures e.email.Some? ==> e.email.value == errors["email"][0]
    ensures e.password.Some? ==> e.password.value == errors["password"][0]
    ensures e.passwordConfirmation.Some? ==> e.passwordConfirmation.value == errors["password_confirmation"][0]
  {
    FieldErrors(
      FirstMessage(errors, "name"),
      FirstMessage(errors, "email"),
      FirstMessage(errors, "password"),
      FirstMessage(errors, "password_confirmation"))
  }

  /** A rejection is shown per field when it is a 422 that carries an `errors` record. */
  predicate IsFieldRejection(err: ApiError) {
    err.status == Some(422) && err.fieldErrors.Some?
  }

  /** The banner text for any other rejection: the body's message, else the error's, else a default. */
  function GlobalMessage(err: ApiError): (m: string)
    ensures err.message.Some? ==> m == err.message.value
    ensures err.message.None? && err.errorMessage.Some? ==> m == err.errorMessage.value
    ensures err.message.None? && err.errorMessage.None? ==> m == RegistrationFailed
  {
    err.message.GetOr(err.errorMessage.GetOr(RegistrationFailed))
  }

  // ---------------------------------------------------------------------------
  // The page state and handleSubmit
  // ---------------------------------------------------------------------------

  class RegisterForm {
    var name: string
    var email: string
    var password: string
    var passwordConfirmation: string
    var fieldErrors: FieldErrors
    var globalError: string
    var loading: bool

    constructor ()
      ensures name == "" && email == "" && password == "" && passwordConfirmation == ""
      ensures fieldErrors == NoErrors && globalError == "" && !loading
    {
      name, email, password, passwordConfirmation := "", "", "", "";
      fieldErrors, globalError, loading := NoErrors, "", false;
    }

    function Payload(): RegisterPayload
      reads this
    {
      RegisterPayload(name, email, password, passwordConfirmation)
    }

    /**
     * Submits the form. `reply` is how the register call would settle;
     * `registerCalled` says whether the call was made, `navigated` whether the
     * page moved on to the application.
     */
    method HandleSubmit(reply: Reply<AuthResponse>) returns (registerCalled: bool, navigated: bool)
      modifies this`fieldErrors, this`globalError, this`loading
      ensures registerCalled <==> Validate(Payload()).IsEmpty()
      ensures !registerCalled ==>
                fieldErrors == Validate(Payload()) && globalError == "" && loading == old(loading)
      ensures registerCalled ==> !loading
      ensures navigated <==> registerCalled && reply.Ok?
      ensures registerCalled && reply.Ok? ==> fieldErrors == NoErrors && globalError == ""
      ensures registerCalled && reply.Err? && IsFieldRejection(reply.error) ==>
                fieldErrors == BackendFieldErrors(reply.error.fieldErrors.value) && globalError == ""
      ensures registerCalled && reply.Err? && !IsFieldRejection(reply.error) ==>
                fieldErrors == NoErrors && globalError == GlobalMessage(reply.error)
    {
      globalError := "";
      registerCalled, navigated := false, false;
      var submitted := Payload();
      var errors := Validate(submitted);
      if !errors.IsEmpty() {
        fieldErrors := errors;
        return;
      }
      fieldErrors := NoErrors;
      loading := true;
      registerCalled := true;
      match reply {
        case Ok(_) =>
          navigated := true;
        case Err(err) =>
          if IsFieldRejection(err) {
            fieldErrors := BackendFieldErrors(err.fieldErrors.value);
          } else {
            globalError := GlobalMessage(err);
          }
      }
      loading := false;
    }
  }
}
