/**
 * The sign-in form: the call-code effect, the field validators that
 * react-hook-form runs before submitting, and `onSubmit`, which posts the
 * credentials and logs the returned token in through the auth hook.
 */
module LoginForm {
  import opened Util
  import opened Api
  import opened PhoneUtils
  import opened AuthHook

  /** The shortest password the form accepts. */
  const MinPasswordLength := 6

  /** What react-hook-form hands to the phone validator: normally the text typed, in principle a boolean. */
  datatype FieldValue = Text(text: string) | Flag(flag: bool)

  /**
   * The phone field's `validatePhone`: a value that is not a string has the
   * wrong format; a value with an "@" is judged by the e-mail test alone; any
   * other value is stripped of a Saudi trunk zero and checked with the
   * detected call code in front.
   */
  function ValidateLoginPhone(value: FieldValue, callCode: string, isValid: string -> bool): (r: Verdict)
    ensures value.Flag? ==> r == Rejected("error.invalidPhoneFormat")
    ensures value.Text? && '@' in value.text ==> (r == Accepted <==> EmailShape(value.text))
    ensures value.Text? && '@' !in value.text ==> (r == Accepted <==> isValid(callCode + StripSaudiZero(value.text)))
    ensures r.Rejected? ==> r.message != ""
  {
    match value
    case Flag(_) => Rejected("error.invalidPhoneFormat")
    case Text(phone) =>
      if '@' in phone then
        IsValidEmailShape(phone);
        if IsValidEmail(phone) then Accepted else Rejected("error.invalidEmail")
      else
        var formattedPhone := if StartsWith(phone, "05") then phone[1..] else phone;
        if !isValid(callCode + formattedPhone) then Rejected("error.invalidPhone") else Accepted
  }

  /** The rules the form checks before `onSubmit` runs: both fields given, the phone valid, the password long enough. */
  predicate FieldsValid(phone: string, password: string, callCode: string, isValid: string -> bool)
  {
    && phone != "" && ValidateLoginPhone(Text(phone), callCode, isValid) == Accepted
    && password != "" && |password| >= MinPasswordLength
  }

  /**
   * A well-formed address that starts with "05" passes the phone field's
   * validation as an e-mail address, yet `onSubmit` sends it without its
   * first character.
   */
  lemma EmailLosesLeadingZero(isValid: string -> bool)
    ensures ValidateLoginPhone(Text("05a@b.co"), "", isValid) == Accepted
    ensures StripSaudiZero("05a@b.co") == "5a@b.co"
  {
    var s := "05a@b.co";
    assert s[3] == '@' && s[5] == '.';
    assert forall i :: 0 <= i < |s| && i != 3 ==> s[i] != '@';
    assert StartsWith(s, "05");
  }

  class LoginFormState {
    var phone: string
    var password: string
    var callCode: string
    var loading: bool
    var requests: seq<Request>
    /** Whether `onLoginSuccess` was called. */
    var succeeded: bool

    constructor ()
      ensures phone == "" && password == "" && callCode == "" && !loading
      ensures requests == [] && !succeeded
    {
      phone := "";
      password := "";
      callCode := "";
      loading := false;
      requests := [];
      succeeded := false;
    }

    /** The user edits the fields; the call-code effect follows the phone field. */
    method Edit(newPhone: string, newPassword: string)
      modifies this
      ensures phone == newPhone && password == newPassword
      ensures callCode == DetectCallCode(newPhone, old(callCode))
      ensures loading == old(loading) && requests == old(requests) && succeeded == old(succeeded)
    {
      phone := newPhone;
      password := newPassword;
      callCode := DetectCallCode(newPhone, callCode);
    }

    /**
     * `onSubmit`: the credentials are posted, the identifier stripped of a
     * leading "0" whenever it starts with "05", an e-mail address included; a token in the answer is logged
     * in with no user (the hydrator verifies it later) and the dialog is told
     * the sign-in succeeded. `outcome` is the returned token, or None when the
     * call threw. Loading ends either way.
     */
    method OnSubmit(session: Session, outcome: Option<string>)
      modifies this, session
      ensures requests == old(requests) + [Request(POST, LoginPath, None, Credentials(StripSaudiZero(phone), password))]
      ensures outcome.Some? ==> session.user == None && session.token == outcome && succeeded
      ensures outcome.None? ==>
        session.user == old(session.user) && session.token == old(session.token) && succeeded == old(succeeded)
      ensures session.requests == old(session.requests) && !loading
      ensures phone == old(phone) && password == old(password) && callCode == old(callCode)
    {
      loading := true;
      var formattedPhone := phone;
      if StartsWith(phone, "05") {
        formattedPhone := phone[1..];
      }
      requests := requests + [Request(POST, LoginPath, None, Credentials(formattedPhone, password))];
      if outcome.Some? {
        session.Login(None, outcome.value);
        succeeded := true;
      }
      loading := false;
    }

    /**
     * Submitting the form: `onSubmit` runs only when the field rules pass, so
     * every credential request carries a password of at least six characters.
     */
    method Submit(session: Session, isValid: string -> bool, outcome: Option<string>)
      modifies this, session
      ensures !FieldsValid(old(phone), old(password), old(callCode), isValid) ==>
        requests == old(requests) && succeeded == old(succeeded) && loading == old(loading)
        && session.user == old(session.user) && session.token == old(session.token)
      ensures FieldsValid(old(phone), old(password), old(callCode), isValid) ==>
        requests == old(requests) + [Request(POST, LoginPath, None, Credentials(StripSaudiZero(phone), password))]
        && |password| >= MinPasswordLength && !loading
      ensures FieldsValid(old(phone), old(password), old(callCode), isValid) && outcome.Some? ==>
        session.user == None && session.token == outcome && succeeded
      ensures FieldsValid(old(phone), old(password), old(callCode), isValid) && outcome.None? ==>
        session.user == old(session.user) && session.token == old(session.token) && succeeded == old(succeeded)
      ensures session.requests == old(session.requests)
      ensures phone == old(phone) && password == old(password) && callCode == old(callCode)
    {
      if !FieldsValid(phone, password, callCode, isValid) {
        return;
      }
      OnSubmit(session, outcome);
    }
  }
}
