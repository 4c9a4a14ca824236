// The customer registration form (frontend/js/register.js): five field
// checks that all run before the verdict, the reCAPTCHA gate, the request it
// sends and what it shows for each answer. The reCAPTCHA widget's response,
// the server's answer and the redirect delay's end are parameters.
module RegisterPage {
  import opened Wrappers
  import opened JavaStrings
  import opened Patterns
  import InputSanitizer
  import opened PageCommon

  datatype FieldError = FieldError(field: string, message: string)

  datatype RegisterForm = RegisterForm(name: string, email: string, phone: string, password: string,
                                       confirmPassword: string)

  datatype RegistrationData = RegistrationData(name: string, email: string, phone: string, password: string,
                                               recaptchaToken: string)

  /** No answer (a network failure or a body that is not JSON), or a status with the reply's two texts. */
  datatype RegisterResponse = Unreachable | Answered(ok: bool, message: Option<string>, error: Option<string>)

  const NameRequired := "Name is required"
  const NameTooShort := "Name must be at least 2 characters"
  const NameInvalid := "Name contains invalid characters"
  const PasswordRequired := "Password is required"
  const PasswordTooShort := "Password must be at least 8 characters"
  const NeedsUpper := "Password must contain at least one uppercase letter"
  const NeedsLower := "Password must contain at least one lowercase letter"
  const NeedsDigit := "Password must contain at least one digit"
  const NeedsSpecial := "Password must contain at least one special character"
  const RecaptchaMissing: FieldError := FieldError("recaptcha", "Please complete the reCAPTCHA verification")
  const UnableToConnect := "Unable to connect to server. Please try again."
  const Registered := "Account created successfully! Redirecting to login..."
  const RegistrationFailed := "Registration failed. Please try again."

  /** The special-character class of the password rule, backslash included. */
  predicate IsSpecial(c: char) { c in "!@#$%^&*()_+-=[]{};':\"\\|,.<>/?" }

  /** `[-\s.]` with JavaScript's `\s`. */
  predicate IsJsPhoneSeparator(c: char) { c == '-' || c == '.' || IsJsSpace(c) }

  /** `^[+]?[(]?[0-9]{3}[)]?[-\s.]?[0-9]{3}[-\s.]?[0-9]{4,6}$` as JavaScript reads it. */
  predicate IsJsPhone(s: string)
  {
    var a := SkipOptional(SkipOptional(s, IsPlus), IsParenOpen);
    |a| >= 3 && All(a[..3], IsDigit)
    && var b := SkipOptional(SkipOptional(a[3..], IsParenClose), IsJsPhoneSeparator);
    |b| >= 3 && All(b[..3], IsDigit)
    && var c := SkipOptional(b[3..], IsJsPhoneSeparator);
    4 <= |c| <= 6 && All(c, IsDigit)
  }

  function NameError(raw: string): Option<string>
  {
    var name := JsTrim(raw);
    if name == [] then Some(NameRequired)
    else if JavaLength(name) < 2 then Some(NameTooShort)
    else if !IsPersonName(name, IsJsSpace) then Some(NameInvalid)
    else None
  }

  function EmailError(raw: string): Option<string>
  {
    var email := JsTrim(raw);
    if email == [] then Some("Email is required")
    else if !IsEmail(email) then Some("Please enter a valid email address")
    else None
  }

  function PhoneError(raw: string): Option<string>
  {
    var phone := JsTrim(raw);
    if phone == [] then Some("Phone number is required")
    else if !IsJsPhone(phone) then Some("Please enter a valid phone number")
    else None
  }

  /** The first failing rule among: required, 8 code units, upper, lower, digit, special. */
  function PasswordError(password: string): Option<string>
  {
    if password == [] then Some(PasswordRequired)
    else if JavaLength(password) < 8 then Some(PasswordTooShort)
    else if !Any(password, IsUpper) then Some(NeedsUpper)
    else if !Any(password, IsLower) then Some(NeedsLower)
    else if !Any(password, IsDigit) then Some(NeedsDigit)
    else if !Any(password, IsSpecial) then Some(NeedsSpecial)
    else None
  }

  function ConfirmError(password: string, confirmPassword: string): Option<string>
  {
    if confirmPassword == [] then Some("Please confirm your password")
    else if password != confirmPassword then Some("Passwords do not match")
    else None
  }

  /** The form's fields, in the order `validateForm` checks them. */
  datatype Field = Name | Email | Phone | Password | ConfirmPassword

  const Fields: seq<Field> := [Name, Email, Phone, Password, ConfirmPassword]

  /** The element id the message goes under. */
  function FieldId(f: Field): string
  {
    match f
    case Name => "name"
    case Email => "email"
    case Phone => "phone"
    case Password => "password"
    case ConfirmPassword => "confirmPassword"
  }

  /** The message of the field's first failing rule, if any. */
  function ErrorOf(form: RegisterForm, f: Field): Option<string>
  {
    match f
    case Name => NameError(form.name)
    case Email => EmailError(form.email)
    case Phone => PhoneError(form.phone)
    case Password => PasswordError(form.password)
    case ConfirmPassword => ConfirmError(form.password, form.confirmPassword)
  }

  function Shown(form: RegisterForm, f: Field): seq<FieldError>
  {
    var error := ErrorOf(form, f);
    if error.Some? then [FieldError(FieldId(f), error.value)] else []
  }

  /** The messages shown for a run of checks: one per failing field, in order. */
  function ErrorsOf(form: RegisterForm, fields: seq<Field>): (r: seq<FieldError>)
    ensures |r| <= |fields|
    ensures r == [] <==> forall i :: 0 <= i < |fields| ==> ErrorOf(form, fields[i]).None?
  {
    if fields == [] then [] else Shown(form, fields[0]) + ErrorsOf(form, fields[1..])
  }

  /** The errors `validateForm` shows. */
  function FormErrors(form: RegisterForm): seq<FieldError>
  {
    ErrorsOf(form, Fields)
  }

  /** What the form shows. */
  datatype RegisterScreen = RegisterScreen(fieldErrors: seq<FieldError>, errorText: Option<string>,
                                           successText: Option<string>, redirect: Option<string>)

  /**
   * `handleSubmit`: messages are cleared; invalid fields show their errors;
   * an empty reCAPTCHA response shows its own error; otherwise the trimmed
   * name, email and phone, the password and the token are sent, and the
   * answer decides between the success text with a redirect to /login and
   * an error text.
   */
  function Submitted(sc: RegisterScreen, form: RegisterForm, recaptchaResponse: string, response: RegisterResponse)
    : (RegisterScreen, Option<RegistrationData>)
  {
    var cleared := sc.(fieldErrors := [], errorText := None, successText := None);
    var errors := FormErrors(form);
    if errors != [] then (cleared.(fieldErrors := errors), None)
    else if recaptchaResponse == [] then (cleared.(fieldErrors := [RecaptchaMissing]), None)
    else (AnswerShown(cleared, response), Some(Request(form, recaptchaResponse)))
  }

  /** The request body: the trimmed name, email and phone, the password as typed, and the token. */
  function Request(form: RegisterForm, recaptchaResponse: string): RegistrationData
  {
    RegistrationData(JsTrim(form.name), JsTrim(form.email), JsTrim(form.phone), form.password, recaptchaResponse)
  }

  /** What the server's answer shows: the success text and a redirect to /login, or an error text. */
  function AnswerShown(sc: RegisterScreen, response: RegisterResponse): RegisterScreen
  {
    match response
    case Unreachable => sc.(errorText := Some(UnableToConnect))
    case Answered(ok, message, error) =>
      if ok then sc.(successText := Some(OrDefault(message, Registered)), redirect := Some("/login"))
      else sc.(errorText := Some(OrDefault(error, RegistrationFailed)))
  }

  // ---------------------------------------------------------------------------
  // Properties

  /** A name passes iff, trimmed, it has at least 2 code units, all letters, whitespace, apostrophes or hyphens. */
  lemma NameRule(raw: string)
    ensures NameError(raw).None? <==> JavaLength(JsTrim(raw)) >= 2 && IsPersonName(JsTrim(raw), IsJsSpace)
  {
  }

  /** Each password message appears exactly when its rule is the first one to fail. */
  lemma PasswordFirstFailingRule(p: string)
    ensures PasswordError(p) == Some(PasswordTooShort) <==> p != [] && JavaLength(p) < 8
    ensures PasswordError(p) == Some(NeedsUpper) <==> JavaLength(p) >= 8 && !Any(p, IsUpper)
    ensures PasswordError(p) == Some(NeedsLower) <==> JavaLength(p) >= 8 && Any(p, IsUpper) && !Any(p, IsLower)
    ensures PasswordError(p) == Some(NeedsDigit) <==>
              JavaLength(p) >= 8 && Any(p, IsUpper) && Any(p, IsLower) && !Any(p, IsDigit)
    ensures PasswordError(p) == Some(NeedsSpecial) <==>
              JavaLength(p) >= 8 && Any(p, IsUpper) && Any(p, IsLower) && Any(p, IsDigit) && !Any(p, IsSpecial)
    ensures PasswordError(p).None? <==>
              JavaLength(p) >= 8 && Any(p, IsUpper) && Any(p, IsLower) && Any(p, IsDigit) && Any(p, IsSpecial)
  {
  }

  /** The confirmation passes iff it is non-empty and equal to the password. */
  lemma ConfirmRule(password: string, confirmPassword: string)
    ensures ConfirmError(password, confirmPassword).None? <==> confirmPassword != [] && confirmPassword == password
  {
  }

  /** Every field is checked: the form is valid iff all five checks pass. */
  lemma EveryFieldChecked(form: RegisterForm)
    ensures FormErrors(form) == [] <==>
              NameError(form.name).None? && EmailError(form.email).None? && PhoneError(form.phone).None?
              && PasswordError(form.password).None? && ConfirmError(form.password, form.confirmPassword).None?
  {
    FormErrorsInOrder(form);
    assert |FormErrors(form)| == |Shown(form, Name)| + |Shown(form, Email)| + |Shown(form, Phone)|
                                 + |Shown(form, Password)| + |Shown(form, ConfirmPassword)|;
  }

  /** The messages appear field by field, one per failing field, in the form's order. */
  lemma {:induction false} FormErrorsInOrder(form: RegisterForm)
    ensures FormErrors(form) == Shown(form, Name) + Shown(form, Email) + Shown(form, Phone) + Shown(form, Password)
                                + Shown(form, ConfirmPassword)
  {
    var f := Fields;
    assert f[1..] == [Email, Phone, Password, ConfirmPassword];
    assert f[1..][1..] == [Phone, Password, ConfirmPassword];
    assert f[1..][1..][1..] == [Password, ConfirmPassword];
    assert f[1..][1..][1..][1..] == [ConfirmPassword];
    assert [ConfirmPassword][1..] == [];
    calc {
      ErrorsOf(form, f);
      Shown(form, Name) + ErrorsOf(form, [Email, Phone, Password, ConfirmPassword]);
      Shown(form, Name) + (Shown(form, Email) + ErrorsOf(form, [Phone, Password, ConfirmPassword]));
      Shown(form, Name) + (Shown(form, Email) + (Shown(form, Phone) + ErrorsOf(form, [Password, ConfirmPassword])));
      Shown(form, Name) + (Shown(form, Email) + (Shown(form, Phone) + (Shown(form, Password)
        + ErrorsOf(form, [ConfirmPassword]))));
      Shown(form, Name) + (Shown(form, Email) + (Shown(form, Phone) + (Shown(form, Password)
        + (Shown(form, ConfirmPassword) + ErrorsOf(form, [])))));
      { assert Shown(form, ConfirmPassword) + ErrorsOf(form, []) == Shown(form, ConfirmPassword);
        RightToLeft(Shown(form, Name), Shown(form, Email), Shown(form, Phone), Shown(form, Password),
                    Shown(form, ConfirmPassword)); }
      Shown(form, Name) + Shown(form, Email) + Shown(form, Phone) + Shown(form, Password) + Shown(form, ConfirmPassword);
    }
  }

  /** Without a reCAPTCHA response nothing is sent, whatever the fields. */
  lemma NoRecaptchaNoRequest(sc: RegisterScreen, form: RegisterForm, response: RegisterResponse)
    ensures Submitted(sc, form, [], response).1.None?
  {
  }

  /** A request is sent only for a valid form with a reCAPTCHA response, and carries the trimmed fields. */
  lemma SentOnlyWhenValid(sc: RegisterScreen, form: RegisterForm, recaptchaResponse: string, response: RegisterResponse)
    ensures var sent := Submitted(sc, form, recaptchaResponse, response).1;
      sent.Some? <==> FormErrors(form) == [] && recaptchaResponse != []
    ensures var sent := Submitted(sc, form, recaptchaResponse, response).1;
      sent.Some? ==> sent.value == RegistrationData(JsTrim(form.name), JsTrim(form.email), JsTrim(form.phone),
                                                    form.password, recaptchaResponse)
  {
  }

  /** The email check agrees with the backend sanitizer's on the trimmed text. */
  lemma EmailAgreesWithBackend(raw: string)
    ensures EmailError(raw).None? <==> InputSanitizer.ValidateEmail(Some(JsTrim(raw))).Ok?
  {
  }

  /** Every phone number the backend sanitizer accepts, the form accepts too. */
  lemma BackendPhoneIsAccepted(s: string)
    requires IsPhone(s)
    ensures IsJsPhone(s)
  {
    var a := SkipOptional(SkipOptional(s, IsPlus), IsParenOpen);
    var a1 := SkipOptional(a[3..], IsParenClose);
    assert a1 != [] && IsRegexSpace(a1[0]) ==> IsJsSpace(a1[0]);
    assert a1 != [] && IsJsPhoneSeparator(a1[0]) && !IsPhoneSeparator(a1[0]) ==> !IsDigit(a1[0]);
    var b := SkipOptional(a1, IsPhoneSeparator);
    assert b == SkipOptional(a1, IsJsPhoneSeparator);
    var b3 := b[3..];
    assert b3 != [] && IsJsPhoneSeparator(b3[0]) && !IsPhoneSeparator(b3[0]) ==> !IsDigit(b3[0]);
    assert SkipOptional(b3, IsPhoneSeparator) == SkipOptional(b3, IsJsPhoneSeparator);
  }

  /** The converse fails: the form takes a no-break space as a separator, the backend does not. */
  lemma NoBreakSpaceOnlyInForm()
    ensures var s := "555" + [0xA0 as char] + "123-4567";
      IsJsPhone(s) && !IsPhone(s)
  {
    var s := "555" + [0xA0 as char] + "123-4567";
    assert s[0] == '5' && s[3] == 0xA0 as char;
    var a := SkipOptional(SkipOptional(s, IsPlus), IsParenOpen);
    assert a == s;
    assert s[3..] == [0xA0 as char] + "123-4567";
    assert SkipOptional(s[3..], IsParenClose) == s[3..];
    assert SkipOptional(s[3..], IsPhoneSeparator) == s[3..];
    assert !IsDigit(s[3]);
    assert SkipOptional(s[3..], IsJsPhoneSeparator) == "123-4567";
    assert "123-4567"[3..] == "-4567";
    assert SkipOptional("-4567", IsJsPhoneSeparator) == "4567";
  }

  lemma RightToLeft<T>(a: seq<T>, b: seq<T>, c: seq<T>, d: seq<T>, e: seq<T>)
    ensures a + (b + (c + (d + e))) == a + b + c + d + e
  {
  }

  lemma AppendFive<T>(x: seq<T>, a: seq<T>, b: seq<T>, c: seq<T>, d: seq<T>, e: seq<T>)
    ensures x + (a + b + c + d + e) == x + a + b + c + d + e
  {
  }

  // ---------------------------------------------------------------------------
  // The form

  class RegistrationHandler {
    var fieldErrors: seq<FieldError>
    var errorText: Option<string>
    var successText: Option<string>
    var redirect: Option<string>

    function State(): RegisterScreen
      reads this
    {
      RegisterScreen(fieldErrors, errorText, successText, redirect)
    }

    constructor()
      ensures State() == RegisterScreen([], None, None, None)
    {
      fieldErrors := [];
      errorText := None;
      successText := None;
      redirect := None;
    }

    /** `showFieldError`: the message appears under its field. */
    method ShowFieldError(field: string, message: string)
      modifies this
      ensures fieldErrors == old(fieldErrors) + [FieldError(field, message)]
      ensures errorText == old(errorText) && successText == old(successText) && redirect == old(redirect)
    {
      fieldErrors := fieldErrors + [FieldError(field, message)];
    }

    /** One field's check inside `validateForm`: a failing rule shows its message. */
    method CheckField(form: RegisterForm, f: Field) returns (passed: bool)
      modifies this
      ensures fieldErrors == old(fieldErrors) + Shown(form, f)
      ensures passed <==> ErrorOf(form, f).None?
      ensures errorText == old(errorText) && successText == old(successText) && redirect == old(redirect)
    {
      passed := true;
      var error := ErrorOf(form, f);
      if error.Some? {
        ShowFieldError(FieldId(f), error.value);
        passed := false;
      }
    }

    /** `validateForm`: each check runs and clears `isValid` when it fails; none returns early. */
    method ValidateForm(form: RegisterForm) returns (isValid: bool)
      modifies this
      ensures fieldErrors == old(fieldErrors) + FormErrors(form)
      ensures isValid <==> FormErrors(form) == []
      ensures errorText == old(errorText) && successText == old(successText) && redirect == old(redirect)
    {
      isValid := true;
      var passed := CheckField(form, Name);
      isValid := isValid && passed;
      passed := CheckField(form, Email);
      isValid := isValid && passed;
      passed := CheckField(form, Phone);
      isValid := isValid && passed;
      passed := CheckField(form, Password);
      isValid := isValid && passed;
      passed := CheckField(form, ConfirmPassword);
      isValid := isValid && passed;
      FormErrorsInOrder(form);
      AppendFive(old(fieldErrors), Shown(form, Name), Shown(form, Email), Shown(form, Phone), Shown(form, Password),
                 Shown(form, ConfirmPassword));
    }

    /** `handleSubmit`, with the widget's response and the server's answer given; returns the request sent, if any. */
    method HandleSubmit(form: RegisterForm, recaptchaResponse: string, response: RegisterResponse)
      returns (sent: Option<RegistrationData>)
      modifies this
      ensures (State(), sent) == Submitted(old(State()), form, recaptchaResponse, response)
    {
      fieldErrors := [];
      errorText := None;
      successText := None;
      var valid := ValidateForm(form);
      assert [] + FormErrors(form) == FormErrors(form);
      if !valid {
        return None;
      }
      assert fieldErrors == [];
      if recaptchaResponse == [] {
        fieldErrors := [RecaptchaMissing];
        return None;
      }
      sent := Some(Request(form, recaptchaResponse));
      match response
      case Unreachable =>
        errorText := Some(UnableToConnect);
      case Answered(ok, message, error) =>
        if ok {
          successText := Some(OrDefault(message, Registered));
          redirect := Some("/login");
        } else {
          errorText := Some(OrDefault(error, RegistrationFailed));
        }
    }
  }
}
