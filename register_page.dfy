/** The registration page's client logic: the form validator, the input
    handler, the metadata sent with sign-up and the classification of what
    sign-up answered. Number parsing is restricted to decimal digits. */
module RegisterPage {
  import opened Common
  import opened AuthCallback

  datatype Field = Email | Password | ConfirmPassword | FirstName | LastName | CompanyName | Phone | TeamSize

  /** The form state; every field is the text typed into it. */
  datatype RegistrationForm = RegistrationForm(
    email: string,
    password: string,
    confirmPassword: string,
    firstName: string,
    lastName: string,
    companyName: string,
    phone: string,
    teamSize: string)

  const EmptyForm := RegistrationForm("", "", "", "", "", "", "", "")

  function FieldValue(form: RegistrationForm, f: Field): string
  {
    match f
    case Email => form.email
    case Password => form.password
    case ConfirmPassword => form.confirmPassword
    case FirstName => form.firstName
    case LastName => form.lastName
    case CompanyName => form.companyName
    case Phone => form.phone
    case TeamSize => form.teamSize
  }

  /** `{ ...prev, [field]: value }` */
  function WithField(form: RegistrationForm, f: Field, value: string): (r: RegistrationForm)
    ensures FieldValue(r, f) == value
    ensures forall g :: g != f ==> FieldValue(r, g) == FieldValue(form, g)
  {
    match f
    case Email => form.(email := value)
    case Password => form.(password := value)
    case ConfirmPassword => form.(confirmPassword := value)
    case FirstName => form.(firstName := value)
    case LastName => form.(lastName := value)
    case CompanyName => form.(companyName := value)
    case Phone => form.(phone := value)
    case TeamSize => form.(teamSize := value)
  }

  /** `Partial<RegistrationForm>` as the error state: a message or nothing
      (`undefined`) per field. */
  datatype FormErrors = FormErrors(
    email: Option<string>,
    password: Option<string>,
    confirmPassword: Option<string>,
    firstName: Option<string>,
    lastName: Option<string>,
    companyName: Option<string>,
    phone: Option<string>,
    teamSize: Option<string>)

  const NoErrors := FormErrors(None, None, None, None, None, None, None, None)

  function ErrorOf(e: FormErrors, f: Field): Option<string>
  {
    match f
    case Email => e.email
    case Password => e.password
    case ConfirmPassword => e.confirmPassword
    case FirstName => e.firstName
    case LastName => e.lastName
    case CompanyName => e.companyName
    case Phone => e.phone
    case TeamSize => e.teamSize
  }

  function WithError(e: FormErrors, f: Field, m: Option<string>): (r: FormErrors)
    ensures ErrorOf(r, f) == m
    ensures forall g :: g != f ==> ErrorOf(r, g) == ErrorOf(e, g)
  {
    match f
    case Email => e.(email := m)
    case Password => e.(password := m)
    case ConfirmPassword => e.(confirmPassword := m)
    case FirstName => e.(firstName := m)
    case LastName => e.(lastName := m)
    case CompanyName => e.(companyName := m)
    case Phone => e.(phone := m)
    case TeamSize => e.(teamSize := m)
  }

  /** `errors[field]` is truthy: the field shows a message. */
  predicate Shows(e: FormErrors, f: Field)
  {
    ErrorOf(e, f).Some? && ErrorOf(e, f).value != ""
  }

  // ---------------------------------------------------------------------
  // Field rules
  // ---------------------------------------------------------------------

  /** `\S+@\S+\.\S+` matches with its `@` at `at` and its `.` at `dot`: a
      non-space just before the `@`, only non-spaces (at least one) between
      them, and a non-space just after the `.`. */
  predicate EmailMatchAt(s: string, at: int, dot: int)
  {
    && 1 <= at && at + 1 < dot && dot + 1 < |s|
    && !IsSpace(s[at - 1]) && s[at] == '@'
    && (forall k | at < k < dot :: !IsSpace(s[k]))
    && s[dot] == '.' && !IsSpace(s[dot + 1])
  }

  /** `/\S+@\S+\.\S+/.test(s)` */
  predicate LooksLikeEmail(s: string)
  {
    exists at, dot | 0 <= at < |s| && 0 <= dot < |s| :: EmailMatchAt(s, at, dot)
  }

  predicate IsDigit(c: char)
  {
    '0' <= c <= '9'
  }

  /** The characters of `[\d\s\-\+\(\)\.]`. */
  predicate IsPhoneChar(c: char)
  {
    IsDigit(c) || IsSpace(c) || c == '-' || c == '+' || c == '(' || c == ')' || c == '.'
  }

  /** `/^[\d\s\-\+\(\)\.]+$/.test(s)` */
  predicate IsPhoneNumber(s: string)
  {
    s != "" && forall i :: 0 <= i < |s| ==> IsPhoneChar(s[i])
  }

  predicate IsDecimal(s: string)
  {
    s != "" && forall i :: 0 <= i < |s| ==> IsDigit(s[i])
  }

  function DigitsValue(s: string): (n: nat)
    requires forall i :: 0 <= i < |s| ==> IsDigit(s[i])
  {
    if s == "" then 0
    else
      var d := s[|s| - 1];
      assert IsDigit(d);
      DigitsValue(s[..|s| - 1]) * 10 + (d as int - '0' as int)
  }

  /** A string of digits has a value of at least 1 exactly when one of its
      digits is not '0'. */
  lemma {:induction false} DigitsValuePositive(t: string)
    requires forall i :: 0 <= i < |t| ==> IsDigit(t[i])
    ensures DigitsValue(t) >= 1 <==> exists i :: 0 <= i < |t| && t[i] != '0'
  {
    if t != "" {
      var u := t[..|t| - 1];
      DigitsValuePositive(u);
      if exists i :: 0 <= i < |u| && u[i] != '0' {
        var i :| 0 <= i < |u| && u[i] != '0';
        assert t[i] == u[i];
      }
      if exists i :: 0 <= i < |t| && t[i] != '0' {
        var i :| 0 <= i < |t| && t[i] != '0';
        if i < |u| {
          assert u[i] == t[i];
        }
      }
    }
  }

  /** `Number(s)` for decimal integers: blank text is 0, and anything but
      digits after trimming is NaN (`None`). */
  function NumberOf(s: string): (r: Option<int>)
    ensures r.Some? ==> r.value >= 0
    ensures AllSpace(s) ==> r == Some(0)
    ensures r.Some? <==> AllSpace(s) || IsDecimal(Trim(s))
  {
    var t := Trim(s);
    TrimEmptyIffAllSpace(s);
    if t == "" then Some(0)
    else if IsDecimal(t) then Some(DigitsValue(t))
    else None
  }

  predicate TeamSizeInvalid(s: string)
  {
    s != "" && (NumberOf(s).None? || NumberOf(s).value < 1)
  }

  // ---------------------------------------------------------------------
  // validateForm
  // ---------------------------------------------------------------------

  function EmailError(email: string): (m: Option<string>)
    ensures m.Some? <==> email == "" || !LooksLikeEmail(email)
  {
    if email == "" then Some("Email is required")
    else if !LooksLikeEmail(email) then Some("Please enter a valid email")
    else None
  }

  /** An error exactly for passwords shorter than eight characters. */
  function PasswordError(password: string): (m: Option<string>)
    ensures m.Some? <==> |password| < 8
  {
    if password == "" then Some("Password is required")
    else if |password| < 8 then Some("Password must be at least 8 characters")
    else None
  }

  /** The confirmation is checked on its own, whatever the other fields hold. */
  function ConfirmError(password: string, confirmPassword: string): (m: Option<string>)
    ensures m.Some? <==> password != confirmPassword
  {
    if password != confirmPassword then Some("Passwords do not match") else None
  }

  /** `!value.trim()`: an error exactly when the text is all white space. */
  function BlankError(value: string, message: string): (m: Option<string>)
    ensures m.Some? <==> AllSpace(value)
    ensures m.Some? ==> m.value == message
  {
    TrimEmptyIffAllSpace(value);
    if Trim(value) == "" then Some(message) else None
  }

  /** An error exactly for a non-empty phone with a character other than a
      digit, white space or one of `- + ( ) .`. */
  function PhoneError(phone: string): (m: Option<string>)
    ensures m.Some? <==> exists i :: 0 <= i < |phone| && !IsPhoneChar(phone[i])
  {
    if phone != "" && !IsPhoneNumber(phone) then Some("Please enter a valid phone number") else None
  }

  /** An error exactly for a non-empty team size that is not a whole number
      of at least 1. */
  function TeamSizeError(teamSize: string): (m: Option<string>)
    ensures m.Some? <==> teamSize != "" && (NumberOf(teamSize).None? || NumberOf(teamSize).value < 1)
  {
    if teamSize != "" && (NumberOf(teamSize).None? || NumberOf(teamSize).value < 1) then
      Some("Team size must be a number greater than 0")
    else None
  }

  /** The team-size rule spelled out: a non-empty team size is in error
      unless, once trimmed, it is all digits and not all of them are '0'. */
  lemma TeamSizeErrorMeaning(teamSize: string)
    ensures TeamSizeError(teamSize).Some? <==>
      teamSize != "" && !(IsDecimal(Trim(teamSize)) && exists i :: 0 <= i < |Trim(teamSize)| && Trim(teamSize)[i] != '0')
  {
    var t := Trim(teamSize);
    TrimEmptyIffAllSpace(teamSize);
    if IsDecimal(t) {
      DigitsValuePositive(t);
    }
  }

  /** The messages `validateForm` collects for a form. */
  function ErrorsFor(form: RegistrationForm): FormErrors
  {
    FormErrors(
      EmailError(form.email),
      PasswordError(form.password),
      ConfirmError(form.password, form.confirmPassword),
      BlankError(form.firstName, "First name is required"),
      BlankError(form.lastName, "Last name is required"),
      BlankError(form.companyName, "Company name is required"),
      PhoneError(form.phone),
      TeamSizeError(form.teamSize))
  }

  /** Whether `validateForm` finds no error. */
  predicate IsValid(form: RegistrationForm)
  {
    && form.email != "" && LooksLikeEmail(form.email)
    && |form.password| >= 8
    && form.password == form.confirmPassword
    && !AllSpace(form.firstName) && !AllSpace(form.lastName) && !AllSpace(form.companyName)
    && (form.phone == "" || IsPhoneNumber(form.phone))
    && !TeamSizeInvalid(form.teamSize)
  }

  /** A form is valid exactly when no check reports a message. */
  lemma ValidIffNoErrors(form: RegistrationForm)
    ensures ErrorsFor(form) == NoErrors <==> IsValid(form)
  {
  }

  /** The e-mail, password and confirmation checks of `validateForm`. */
  method CheckCredentials(form: RegistrationForm, errors: FormErrors) returns (newErrors: FormErrors)
    ensures newErrors == errors.(email := EmailError(form.email), password := PasswordError(form.password),
                                 confirmPassword := ConfirmError(form.password, form.confirmPassword))
  {
    newErrors := errors.(email := None, password := None, confirmPassword := None);
    if form.email == "" {
      newErrors := newErrors.(email := Some("Email is required"));
    } else if !LooksLikeEmail(form.email) {
      newErrors := newErrors.(email := Some("Please enter a valid email"));
    }
    if form.password == "" {
      newErrors := newErrors.(password := Some("Password is required"));
    } else if |form.password| < 8 {
      newErrors := newErrors.(password := Some("Password must be at least 8 characters"));
    }
    if form.password != form.confirmPassword {
      newErrors := newErrors.(confirmPassword := Some("Passwords do not match"));
    }
  }

  /** One `!value.trim()` check of `validateForm`. */
  method CheckBlank(value: string, message: string) returns (m: Option<string>)
    ensures m == BlankError(value, message)
  {
    m := None;
    if Trim(value) == "" {
      m := Some(message);
    }
  }

  /** The optional phone and team-size checks of `validateForm`. */
  method CheckOptional(form: RegistrationForm, errors: FormErrors) returns (newErrors: FormErrors)
    ensures newErrors == errors.(phone := PhoneError(form.phone), teamSize := TeamSizeError(form.teamSize))
  {
    newErrors := errors.(phone := None, teamSize := None);
    if form.phone != "" && !IsPhoneNumber(form.phone) {
      newErrors := newErrors.(phone := Some("Please enter a valid phone number"));
    }
    if form.teamSize != "" && (NumberOf(form.teamSize).None? || NumberOf(form.teamSize).value < 1) {
      newErrors := newErrors.(teamSize := Some("Team size must be a number greater than 0"));
    }
  }

  /** `validateForm`: each check that fails sets its field's message, and
      the form is valid exactly when no message was set. */
  method ValidateForm(form: RegistrationForm) returns (newErrors: FormErrors, valid: bool)
    ensures newErrors == ErrorsFor(form)
    ensures valid <==> IsValid(form)
  {
    newErrors := CheckCredentials(form, NoErrors);
    var first := CheckBlank(form.firstName, "First name is required");
    var last := CheckBlank(form.lastName, "Last name is required");
    var company := CheckBlank(form.companyName, "Company name is required");
    newErrors := newErrors.(firstName := first, lastName := last, companyName := company);
    newErrors := CheckOptional(form, newErrors);
    valid := newErrors == NoErrors;
    ValidIffNoErrors(form);
  }

  /** The address in the example placeholder passes the e-mail check. */
  lemma ExampleEmailAccepted()
    ensures LooksLikeEmail("john@company.com")
  {
    assert EmailMatchAt("john@company.com", 4, 12);
  }

  /** Without a `.` after the `@` the e-mail check fails. */
  lemma ExampleEmailRejected()
    ensures !LooksLikeEmail("john@company")
  {
    var s := "john@company";
    forall at, dot | 0 <= at < |s| && 0 <= dot < |s|
      ensures !EmailMatchAt(s, at, dot)
    {
      assert s[dot] != '.';
    }
  }

  // ---------------------------------------------------------------------
  // handleInputChange
  // ---------------------------------------------------------------------

  /** `handleInputChange`: the field takes the new value and stops showing
      an error; every other field and error stays as it was. */
  function HandleInputChange(form: RegistrationForm, errors: FormErrors, f: Field, value: string)
    : (r: (RegistrationForm, FormErrors))
    ensures FieldValue(r.0, f) == value
    ensures forall g :: g != f ==> FieldValue(r.0, g) == FieldValue(form, g)
    ensures !Shows(r.1, f)
    ensures forall g :: g != f ==> ErrorOf(r.1, g) == ErrorOf(errors, g)
  {
    (WithField(form, f, value), if Shows(errors, f) then WithError(errors, f, None) else errors)
  }

  // ---------------------------------------------------------------------
  // handleSubmit
  // ---------------------------------------------------------------------

  /** The `options.data` sent with `signUp`: trimmed names and company, the
      full name as "first last", the phone trimmed, the team size parsed.
      It sets no position and no role. */
  function SignUpMetadata(form: RegistrationForm): (m: Metadata)
    ensures m.firstName == Trim(form.firstName) && m.lastName == Trim(form.lastName)
    ensures m.fullName == Trim(form.firstName) + " " + Trim(form.lastName)
    ensures m.company == Trim(form.companyName) && m.companyName == Trim(form.companyName)
    ensures m.phone == Trim(form.phone)
    ensures m.teamSize == (if form.teamSize == "" then None else NumberOf(form.teamSize))
    ensures m.position == "" && m.role == ""
  {
    var first := Trim(form.firstName);
    var last := Trim(form.lastName);
    var company := Trim(form.companyName);
    Metadata(first, last, first + " " + last, company, company, "", Trim(form.phone),
             if form.teamSize == "" then None else NumberOf(form.teamSize), "")
  }

  /** For a valid form, the profile payload that the sign-in callback
      later builds from this metadata carries the trimmed names and
      company, and, since the metadata names no role, the role "user". */
  lemma RegisteredUserPayload(form: RegistrationForm, id: string)
    requires IsValid(form) && id != ""
    ensures var u := AuthUser(id, Trim(form.email), SignUpMetadata(form));
      var b := ProfilePayload(u);
      && b.firstName == Trim(form.firstName) && b.lastName == Trim(form.lastName)
      && b.companyName == Trim(form.companyName)
      && b.role == "user"
  {
    TrimEmptyIffAllSpace(form.firstName);
    TrimEmptyIffAllSpace(form.lastName);
    TrimEmptyIffAllSpace(form.companyName);
  }

  /** The kinds of sign-up error the page tells apart. */
  datatype SignUpFailure =
    | AlreadyRegistered        // 'Account already exists. Please sign in instead.', then /login
    | WeakPassword             // password error 'Password must be at least 6 characters long'
    | InvalidEmail             // email error 'Please enter a valid email address'
    | ProfileSetupFailed       // 'Account created but profile setup failed. ...'
    | OtherFailure(shown: string)

  /** The message checks, in the page's order. */
  function ClassifySignUpError(message: string): (f: SignUpFailure)
    ensures Contains(message, "User already registered") <==> f == AlreadyRegistered
    ensures f == WeakPassword <==>
      !Contains(message, "User already registered") && Contains(message, "Password should be")
    ensures f == InvalidEmail <==>
      !Contains(message, "User already registered") && !Contains(message, "Password should be")
      && Contains(message, "Invalid email")
    ensures f == ProfileSetupFailed <==>
      !Contains(message, "User already registered") && !Contains(message, "Password should be")
      && !Contains(message, "Invalid email") && Contains(message, "profile creation failed")
    ensures f.OtherFailure? ==> f.shown == OrElse(message, "Registration failed. Please try again or contact support.")
  {
    if Contains(message, "User already registered") then AlreadyRegistered
    else if Contains(message, "Password should be") then WeakPassword
    else if Contains(message, "Invalid email") then InvalidEmail
    else if Contains(message, "profile creation failed") then ProfileSetupFailed
    else OtherFailure(OrElse(message, "Registration failed. Please try again or contact support."))
  }

  /** What `signUp` did: answered with an error, answered with or without a
      user (whose e-mail is or is not confirmed), or threw (an `Error` with
      a message, or something else). */
  datatype SignUpReply =
    | SignUpError(message: string)
    | SignedUp(user: Option<bool>)
    | SignUpThrew(isError: bool, thrown: string)

  datatype Notice = ErrorToast(text: string) | SuccessToast(text: string)

  /** The page after a submit: whether sign-up was called, the field
      errors, the toast, where the page navigates, and the form. */
  datatype SubmitResult = SubmitResult(
    signUpCalled: bool,
    errors: FormErrors,
    notice: Option<Notice>,
    redirect: Option<string>,
    form: RegistrationForm)

  /** The toast for an exception from `signUp`. */
  function ThrownNotice(isError: bool, thrown: string): (n: Notice)
    ensures n.ErrorToast?
  {
    if !isError then ErrorToast("An unexpected error occurred. Please try again.")
    else if Contains(thrown, "network") || Contains(thrown, "fetch") then
      ErrorToast("Network error. Please check your connection and try again.")
    else if Contains(thrown, "timeout") then ErrorToast("Request timeout. Please try again.")
    else ErrorToast("Registration failed. Please try again or contact support.")
  }

  /** The page after `signUp` answered with an error: the form is kept,
      only an already registered address navigates (to the login page), and
      only the password and e-mail rejections replace the field errors. */
  function SignUpErrorResult(form: RegistrationForm, newErrors: FormErrors, message: string): (r: SubmitResult)
    ensures r.signUpCalled && r.form == form && r.notice.Some? && r.notice.value.ErrorToast?
    ensures r.redirect.Some? ==> r.redirect == Some("/login")
  {
    match ClassifySignUpError(message)
    case AlreadyRegistered =>
      SubmitResult(true, newErrors, Some(ErrorToast("Account already exists. Please sign in instead.")), Some("/login"), form)
    case WeakPassword =>
      SubmitResult(true, NoErrors.(password := Some("Password must be at least 6 characters long")),
                   Some(ErrorToast("Password requirements not met")), None, form)
    case InvalidEmail =>
      SubmitResult(true, NoErrors.(email := Some("Please enter a valid email address")),
                   Some(ErrorToast("Invalid email address")), None, form)
    case ProfileSetupFailed =>
      SubmitResult(true, newErrors,
                   Some(ErrorToast("Account created but profile setup failed. Please contact support or try logging in.")),
                   None, form)
    case OtherFailure(shown) => SubmitResult(true, newErrors, Some(ErrorToast(shown)), None, form)
  }

  /** `handleSubmit` with the validator's errors `newErrors` and the reply
      of `signUp`. */
  function Submit(form: RegistrationForm, newErrors: FormErrors, reply: SignUpReply): (r: SubmitResult)
    requires newErrors == NoErrors <==> IsValid(form)
    ensures !IsValid(form) ==> r == SubmitResult(false, newErrors, Some(ErrorToast("Please fix the form errors")), None, form)
    ensures r.redirect == Some("/dashboard") ==> reply == SignedUp(Some(true))
    ensures r.form != form ==> r.form == EmptyForm && reply.SignedUp? && reply.user.Some?
    ensures IsValid(form) ==> r.signUpCalled
    ensures IsValid(form) && reply == SignedUp(Some(true)) ==> r.redirect == Some("/dashboard") && r.form == EmptyForm
    ensures IsValid(form) && reply == SignedUp(Some(false)) ==>
              r.redirect == Some("/login?message=check_email") && r.form == EmptyForm
    ensures IsValid(form) && reply == SignedUp(None) ==> r.redirect.None? && r.form == form && r.notice.None?
    ensures IsValid(form) && reply.SignUpThrew? ==> r.redirect.None? && r.form == form && r.notice.Some? && r.notice.value.ErrorToast?
  {
    if newErrors != NoErrors then
      SubmitResult(false, newErrors, Some(ErrorToast("Please fix the form errors")), None, form)
    else match reply
      case SignUpError(message) => SignUpErrorResult(form, newErrors, message)
      case SignedUp(None) => SubmitResult(true, newErrors, None, None, form)
      case SignedUp(Some(confirmed)) =>
        if confirmed then
          SubmitResult(true, newErrors, Some(SuccessToast("Account created successfully! Setting up your demo account...")),
                       Some("/dashboard"), EmptyForm)
        else
          SubmitResult(true, newErrors,
                       Some(SuccessToast("Account created! Please check your email to confirm your account and complete your demo profile setup.")),
                       Some("/login?message=check_email"), EmptyForm)
      case SignUpThrew(isError, thrown) => SubmitResult(true, newErrors, Some(ThrownNotice(isError, thrown)), None, form)
  }

  /** A sign-up error never clears the form, and only the password and
      e-mail rejections set a field error. */
  lemma SignUpErrorKeepsForm(form: RegistrationForm, newErrors: FormErrors, message: string)
    requires newErrors == NoErrors && IsValid(form)
    ensures var r := Submit(form, newErrors, SignUpError(message));
      && r.signUpCalled && r.form == form && r.notice.Some? && r.notice.value.ErrorToast?
      && (r.errors != NoErrors <==> ClassifySignUpError(message) == WeakPassword || ClassifySignUpError(message) == InvalidEmail)
  {
  }
}
