/**
 * The zod schemas of the registration and sign-in forms. Every check of a
 * field runs and reports its own issue; the form parses only when no check
 * fails, and then the transforms produce the values sent to the backend.
 * zod's own e-mail test and libphonenumber's validity test are the
 * parameters `isEmail` and `isValid`.
 */
module AuthSchema {
  import opened Util
  import opened PhoneUtils

  datatype Field = Fullname | Phone | Email | Password | ConfirmPassword

  /** An issue's message: a translation key given in the schema, or zod's default "at most n characters". */
  datatype Message = Key(key: string) | TooLong(maximum: nat) | InvalidInput

  datatype Issue = Issue(path: Field, message: Message)

  /** One check: no issue when it holds, one issue on `path` otherwise. */
  function Check(holds: bool, path: Field, message: Message): (r: seq<Issue>)
    ensures r == [] <==> holds
  {
    if holds then [] else [Issue(path, message)]
  }

  /** A zod refinement passes when its callback returns a truthy value. */
  predicate RefinePasses(v: Verdict)
  {
    v.Accepted? || v.message != ""
  }

  // ---------------------------------------------------------------------------
  // Registration
  // ---------------------------------------------------------------------------

  datatype RegisterForm = RegisterForm(fullname: string, phone: string, email: string, password: string, confirmPassword: string)

  /** `RegisterFormValues` after the transforms. */
  datatype RegisterValues = RegisterValues(fullname: string, phone: string, email: string, password: string, confirmPassword: string)

  /** The issues of the field checks of `registerSchema`, field by field. */
  function RegisterFieldIssues(f: RegisterForm, isValid: string -> bool, isEmail: string -> bool): seq<Issue>
  {
    Check(|f.fullname| >= 2, Fullname, Key("error.fullnameRequired"))
    + Check(|f.fullname| <= 100, Fullname, TooLong(100))
    + Check(|f.phone| >= 1, Phone, Key("error.phoneRequired"))
    + Check(|f.phone| <= 15, Phone, TooLong(15))
    + Check(ValidatePhone(f.phone, isValid).Some?, Phone, Key("error.invalidPhone"))
    + Check(|f.email| >= 1, Email, Key("error.emailRequired"))
    + Check(|f.email| <= 100, Email, TooLong(100))
    + Check(isEmail(f.email), Email, Key("error.invalidEmail"))
    + Check(|f.password| >= 6, Password, Key("error.passwordRequired"))
    + Check(|f.password| <= 12, Password, TooLong(12))
    + Check(|f.confirmPassword| >= 6, ConfirmPassword, Key("error.confirmPasswordRequired"))
    + Check(|f.confirmPassword| <= 12, ConfirmPassword, TooLong(12))
  }

  /** Every field of the registration form is within its bounds and valid. */
  predicate RegisterFieldsValid(f: RegisterForm, isValid: string -> bool, isEmail: string -> bool)
  {
    && 2 <= |f.fullname| <= 100
    && 1 <= |f.phone| <= 15 && isValid(FormatPhoneForApi(f.phone))
    && 1 <= |f.email| <= 100 && isEmail(f.email)
    && 6 <= |f.password| <= 12
    && 6 <= |f.confirmPassword| <= 12
  }

  /**
   * `registerSchema.safeParse`: the field checks, then the password match
   * refinement on the whole object; the phone leaves as `formatPhoneForApi(phone)`.
   */
  function ParseRegister(f: RegisterForm, isValid: string -> bool, isEmail: string -> bool): (r: Result<RegisterValues, seq<Issue>>)
    ensures r.Ok? <==> RegisterFieldsValid(f, isValid, isEmail) && f.password == f.confirmPassword
    ensures r.Ok? ==> r.value == RegisterValues(f.fullname, FormatPhoneForApi(f.phone), f.email, f.password, f.confirmPassword)
    ensures r.Err? ==> r.error != []
    ensures RegisterFieldsValid(f, isValid, isEmail) && f.password != f.confirmPassword ==>
      r == Err([Issue(ConfirmPassword, Key("error.passwordMismatch"))])
  {
    var issues := RegisterFieldIssues(f, isValid, isEmail);
    if issues != [] then Err(issues)
    else if f.password != f.confirmPassword then Err([Issue(ConfirmPassword, Key("error.passwordMismatch"))])
    else Ok(RegisterValues(f.fullname, FormatPhoneForApi(f.phone), f.email, f.password, f.confirmPassword))
  }

  // ---------------------------------------------------------------------------
  // Sign-in
  // ---------------------------------------------------------------------------

  datatype LoginForm = LoginForm(phone: string, password: string)

  /** `LoginFormValues` after the transform. */
  datatype LoginValues = LoginValues(phone: string, password: string)

  /** The messages `loginSchema` hands to `validatePhoneOrEmail`. */
  const LoginMessages := Messages("error.invalidEmailOrPhone", "error.invalidEmail", "error.invalidPhone")

  /**
   * The refinement of the sign-in phone field never fails: the validator
   * returns `true` or one of three non-empty messages, and a non-empty string
   * is truthy.
   */
  lemma LoginRefineNeverRejects(value: string, isValid: string -> bool)
    ensures RefinePasses(ValidatePhoneOrEmail(value, LoginMessages, isValid))
  {
  }

  /** The issues of the field checks of `loginSchema`. */
  function LoginFieldIssues(f: LoginForm, isValid: string -> bool): seq<Issue>
  {
    Check(|f.phone| >= 1, Phone, Key("error.emailOrPhoneIsRequired"))
    + Check(|f.phone| <= 100, Phone, TooLong(100))
    + Check(RefinePasses(ValidatePhoneOrEmail(f.phone, LoginMessages, isValid)), Phone, InvalidInput)
    + Check(|f.password| >= 1, Password, Key("error.passwordIsRequired"))
    + Check(|f.password| >= 6, Password, Key("error.passwordLength"))
    + Check(|f.password| <= 12, Password, TooLong(12))
  }

  /** The value the sign-in phone field leaves with: an e-mail address as typed, a phone number with "+2". */
  function LoginPhoneValue(value: string): (r: string)
    ensures '@' in value ==> r == value
    ensures '@' !in value ==> r == FormatPhoneForApi(value) && StartsWith(r, EgyptCode)
  {
    if '@' in value then value else FormatPhoneForApi(value)
  }

  /**
   * `loginSchema.safeParse`: only the lengths decide, whatever the phone or
   * e-mail looks like, since the refinement never fails.
   */
  function ParseLogin(f: LoginForm, isValid: string -> bool): (r: Result<LoginValues, seq<Issue>>)
    ensures r.Ok? <==> 1 <= |f.phone| <= 100 && 6 <= |f.password| <= 12
    ensures r.Ok? ==> r.value == LoginValues(LoginPhoneValue(f.phone), f.password)
    ensures r.Err? ==> r.error != [] && forall i :: i in r.error ==> i.message != InvalidInput
  {
    LoginRefineNeverRejects(f.phone, isValid);
    var issues := LoginFieldIssues(f, isValid);
    if issues != [] then Err(issues)
    else Ok(LoginValues(LoginPhoneValue(f.phone), f.password))
  }
}
