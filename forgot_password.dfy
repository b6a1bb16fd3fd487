/**
 * The password-reset dialog: a contact step that asks the backend for a
 * one-time code, and a code step that sends the code with the new password.
 * The component's state is a class; the form fields the handlers read are a
 * field `form` that `Edit` replaces as the user types.
 */
module ForgotPassword {
  import opened Util
  import opened Api
  import opened PhoneUtils

  /** The declared steps; `PasswordStep` is declared but no handler enters it. */
  datatype Step = ContactStep | OtpStep | PasswordStep

  datatype ResetForm = ResetForm(phoneOrEmail: string, otp: string, newPassword: string, confirmPassword: string)

  const EmptyForm := ResetForm("", "", "", "")

  /** The length the code field demands, as both its minimum and its maximum. */
  const OtpLength := 6
  /** The shortest new password `validatePassword` accepts. */
  const MinPasswordLength := 6

  /**
   * The contact sent to the backend: a phone number typed with the Saudi trunk
   * zero ("05…") loses it; an e-mail address is sent as typed.
   */
  function FormattedContact(contact: string): (r: string)
    ensures '@' in contact ==> r == contact
    ensures '@' !in contact ==> r == StripSaudiZero(contact)
    ensures StartsWith(contact, "05") && '@' !in contact ==> r == contact[1..]
    ensures !StartsWith(contact, "05") ==> r == contact
  {
    if StartsWith(contact, "05") && '@' !in contact then contact[1..] else contact
  }

  /**
   * The contact field's `validatePhoneOrEmail`: empty fails, a value with an
   * "@" is judged by the e-mail test, any other value is stripped of a Saudi
   * trunk zero and checked with the detected call code in front.
   */
  function ValidateContact(value: string, callCode: string, isValid: string -> bool): (r: Verdict)
    ensures value == "" ==> r == Rejected("error.email")
    ensures value != "" && '@' in value ==> (r == Accepted <==> EmailShape(value))
    ensures value != "" && '@' !in value ==> (r == Accepted <==> isValid(callCode + StripSaudiZero(value)))
    ensures r.Rejected? ==> r.message != ""
  {
    if value == "" then Rejected("error.email")
    else if '@' in value then
      IsValidEmailShape(value);
      if IsValidEmail(value) then Accepted else Rejected("error.invalidEmail")
    else
      var formattedPhone := if StartsWith(value, "05") then value[1..] else value;
      if !isValid(callCode + formattedPhone) then Rejected("error.invalidPhone") else Accepted
  }

  /** `validatePassword(...).isValid`: at least six characters. */
  predicate PasswordValid(password: string)
  {
    |password| >= MinPasswordLength
  }

  /** What react-hook-form demands of the code step's fields before the handler runs. */
  predicate CodeFieldsValid(f: ResetForm)
  {
    && |f.otp| == OtpLength
    && f.newPassword != "" && PasswordValid(f.newPassword)
    && f.confirmPassword != "" && f.confirmPassword == f.newPassword
  }

  /** The handler's own checks before it sends anything: code, password, then the match. */
  predicate CodeHandlerProceeds(f: ResetForm)
  {
    f.otp != "" && f.newPassword != "" && f.newPassword == f.confirmPassword
  }

  /** Fields that pass the form's validation always get past the handler's checks. */
  lemma CodeFieldsProceed(f: ResetForm)
    requires CodeFieldsValid(f)
    ensures CodeHandlerProceeds(f)
  {
  }

  class ForgotPasswordDialog {
    var step: Step
    var isLoading: bool
    var contactInfo: string
    var callCode: string
    var form: ResetForm
    var requests: seq<Request>
    /** Whether `onBackToLogin` was called after a successful reset. */
    var returnedToLogin: bool

    /** Between handlers: never the unused step, the code step only with a saved contact, and not loading. */
    predicate Valid()
      reads this
    {
      step != PasswordStep && (step == OtpStep ==> contactInfo != "") && !isLoading
    }

    constructor ()
      ensures Valid()
      ensures step == ContactStep && contactInfo == "" && callCode == "" && form == EmptyForm
      ensures requests == [] && !returnedToLogin
    {
      step := ContactStep;
      isLoading := false;
      contactInfo := "";
      callCode := "";
      form := EmptyForm;
      requests := [];
      returnedToLogin := false;
    }

    /** The user edits the form; the call-code effect follows the contact field. */
    method Edit(newForm: ResetForm)
      requires Valid()
      modifies this
      ensures Valid()
      ensures form == newForm && callCode == DetectCallCode(newForm.phoneOrEmail, old(callCode))
      ensures step == old(step) && contactInfo == old(contactInfo)
      ensures requests == old(requests) && returnedToLogin == old(returnedToLogin)
    {
      form := newForm;
      callCode := DetectCallCode(newForm.phoneOrEmail, callCode);
    }

    /**
     * `handleSendOTP`: nothing without a contact; otherwise the formatted
     * contact is posted, and a truthy answer saves the contact as typed and
     * moves to the code step. `outcome` is the answer's truthiness, or None
     * when the call threw.
     */
    method HandleSendOtp(lang: string, outcome: Option<bool>)
      requires Valid()
      modifies this
      ensures Valid()
      ensures old(form).phoneOrEmail == "" ==>
        step == old(step) && contactInfo == old(contactInfo) && requests == old(requests)
      ensures old(form).phoneOrEmail != "" ==>
        requests == old(requests) + [Request(POST, ForgetPasswordPath + lang, None, ContactRef(FormattedContact(old(form).phoneOrEmail)))]
      ensures old(form).phoneOrEmail != "" && outcome == Some(true) ==>
        step == OtpStep && contactInfo == old(form).phoneOrEmail
      ensures outcome != Some(true) ==> step == old(step) && contactInfo == old(contactInfo)
      ensures form == old(form) && callCode == old(callCode) && returnedToLogin == old(returnedToLogin)
    {
      var contact := form.phoneOrEmail;
      if contact == "" {
        return;
      }
      isLoading := true;
      var formattedContact := contact;
      if StartsWith(contact, "05") && '@' !in contact {
        formattedContact := contact[1..];
      }
      requests := requests + [Request(POST, ForgetPasswordPath + lang, None, ContactRef(formattedContact))];
      if outcome == Some(true) {
        contactInfo := contact;
        step := OtpStep;
      }
      isLoading := false;
    }

    /**
     * `handleVerifyAndReset`: a missing code, a missing password or a
     * mismatch stops it before any request; otherwise the code, the saved
     * contact (formatted) and the new password are sent, and a truthy answer
     * clears the form and returns to the sign-in view.
     */
    method HandleVerifyAndReset(lang: string, outcome: Option<bool>)
      requires Valid()
      modifies this
      ensures Valid()
      ensures !CodeHandlerProceeds(old(form)) ==>
        requests == old(requests) && form == old(form) && returnedToLogin == old(returnedToLogin)
      ensures CodeHandlerProceeds(old(form)) ==>
        requests == old(requests) + [Request(PATCH, ResetPasswordPath + lang, None,
          PasswordReset(old(form).otp, FormattedContact(contactInfo), old(form).newPassword))]
      ensures CodeHandlerProceeds(old(form)) && outcome == Some(true) ==> form == EmptyForm && returnedToLogin
      ensures outcome != Some(true) ==> form == old(form) && returnedToLogin == old(returnedToLogin)
      ensures step == old(step) && contactInfo == old(contactInfo) && callCode == old(callCode)
    {
      if form.otp == "" {
        return;
      }
      if form.newPassword == "" {
        return;
      }
      if form.newPassword != form.confirmPassword {
        return;
      }
      isLoading := true;
      var formattedContact := contactInfo;
      if StartsWith(contactInfo, "05") && '@' !in contactInfo {
        formattedContact := contactInfo[1..];
      }
      requests := requests + [Request(PATCH, ResetPasswordPath + lang, None,
        PasswordReset(form.otp, formattedContact, form.newPassword))];
      if outcome == Some(true) {
        form := EmptyForm;
        returnedToLogin := true;
      }
      isLoading := false;
    }

    /** `handleReset` ("Back"): the contact step again, with no saved contact and an empty form. */
    method HandleReset()
      requires Valid()
      modifies this
      ensures Valid()
      ensures step == ContactStep && contactInfo == "" && form == EmptyForm
      ensures callCode == old(callCode) && requests == old(requests) && returnedToLogin == old(returnedToLogin)
    {
      step := ContactStep;
      contactInfo := "";
      form := EmptyForm;
    }

    /**
     * Submitting the contact form: react-hook-form runs the field's required
     * and `validatePhoneOrEmail` rules first and calls the handler only when
     * both pass, so every request it lets through carries a non-empty contact.
     */
    method SubmitContact(lang: string, isValid: string -> bool, outcome: Option<bool>)
      requires Valid() && step == ContactStep
      modifies this
      ensures Valid()
      ensures ValidateContact(old(form).phoneOrEmail, callCode, isValid) != Accepted ==>
        step == old(step) && contactInfo == old(contactInfo) && requests == old(requests)
      ensures ValidateContact(old(form).phoneOrEmail, callCode, isValid) == Accepted ==>
        old(form).phoneOrEmail != ""
        && requests == old(requests) + [Request(POST, ForgetPasswordPath + lang, None, ContactRef(FormattedContact(old(form).phoneOrEmail)))]
        && (outcome == Some(true) ==> step == OtpStep && contactInfo == old(form).phoneOrEmail)
        && (outcome != Some(true) ==> step == old(step) && contactInfo == old(contactInfo))
      ensures form == old(form) && callCode == old(callCode) && returnedToLogin == old(returnedToLogin)
    {
      if ValidateContact(form.phoneOrEmail, callCode, isValid) != Accepted {
        return;
      }
      HandleSendOtp(lang, outcome);
    }

    /**
     * Submitting the code form: the code must have exactly six characters, the
     * password at least six, and the confirmation must match; only then does
     * the handler run, and then it always sends the reset request.
     */
    method SubmitCode(lang: string, outcome: Option<bool>)
      requires Valid() && step == OtpStep
      modifies this
      ensures Valid()
      ensures !CodeFieldsValid(old(form)) ==>
        requests == old(requests) && form == old(form) && returnedToLogin == old(returnedToLogin)
      ensures CodeFieldsValid(old(form)) ==>
        requests == old(requests) + [Request(PATCH, ResetPasswordPath + lang, None,
          PasswordReset(old(form).otp, FormattedContact(contactInfo), old(form).newPassword))]
        && |old(form).otp| == OtpLength && contactInfo != ""
      ensures CodeFieldsValid(old(form)) && outcome == Some(true) ==> form == EmptyForm && returnedToLogin
      ensures outcome != Some(true) ==> form == old(form) && returnedToLogin == old(returnedToLogin)
      ensures step == old(step) && contactInfo == old(contactInfo) && callCode == old(callCode)
    {
      if !CodeFieldsValid(form) {
        return;
      }
      CodeFieldsProceed(form);
      HandleVerifyAndReset(lang, outcome);
    }
  }
}
