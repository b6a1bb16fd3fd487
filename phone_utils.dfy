/**
 * The phone and e-mail rules shared by the sign-in, registration and
 * password-reset forms: the "+2" prefixing of `formatPhoneForApi`, the
 * e-mail regular expression, the call-code detection by prefix and the
 * removal of a Saudi trunk "0". libphonenumber's validity test is a
 * parameter `isValid` of every member that needs it.
 */
module PhoneUtils {
  import opened Util

  /** The Egyptian country code `formatPhoneForApi` prefixes. */
  const EgyptCode := "+2"
  /** The Saudi country code the call-code effect picks for "05…" and "5…". */
  const SaudiCode := "+966"

  /** `formatPhoneForApi`: "+2" is put in front of a number that does not already start with it. */
  function FormatPhoneForApi(phone: string): (r: string)
    ensures StartsWith(r, EgyptCode)
    ensures |phone| <= |r| <= |phone| + 2 && r[|r| - |phone|..] == phone
    ensures r == phone <==> StartsWith(phone, EgyptCode)
  {
    if StartsWith(phone, EgyptCode) then phone else EgyptCode + phone
  }

  /** Formatting a formatted number changes nothing. */
  lemma FormatPhoneIdempotent(phone: string)
    ensures FormatPhoneForApi(FormatPhoneForApi(phone)) == FormatPhoneForApi(phone)
  {
  }

  /** `validatePhone`: false (None) unless the formatted number is valid, and then exactly the formatted number. */
  function ValidatePhone(phone: string, isValid: string -> bool): (r: Option<string>)
    ensures r.Some? <==> isValid(FormatPhoneForApi(phone))
    ensures r.Some? ==> r.value == FormatPhoneForApi(phone) && StartsWith(r.value, EgyptCode)
  {
    var formattedPhone := FormatPhoneForApi(phone);
    if !isValid(formattedPhone) then None else Some(formattedPhone)
  }

  // ---------------------------------------------------------------------------
  // E-mail
  // ---------------------------------------------------------------------------

  /** A character the class `[^\s@]` matches. */
  predicate Plain(c: char)
  {
    c != '@' && !IsWhitespace(c)
  }

  /** A string `[^\s@]+` matches in full. */
  predicate PlainRun(t: string)
  {
    |t| > 0 && forall i :: 0 <= i < |t| ==> Plain(t[i])
  }

  /**
   * `/^[^\s@]+@[^\s@]+\.[^\s@]+$/.test(s)`: the string splits at an "@"
   * (position `a`) and a later "." (position `d`) into three plain runs.
   */
  predicate IsValidEmail(s: string)
  {
    exists a, d :: 0 < a < |s| && a + 1 < d < |s| - 1 && s[a] == '@' && s[d] == '.'
      && PlainRun(s[..a]) && PlainRun(s[a + 1..d]) && PlainRun(s[d + 1..])
  }

  /**
   * The same test, said in words: no white space, exactly one "@", something
   * before it, and a "." after it with something on both sides.
   */
  predicate EmailShape(s: string)
  {
    && (forall i :: 0 <= i < |s| ==> !IsWhitespace(s[i]))
    && (exists a :: 0 < a < |s| && s[a] == '@'
         && (forall i :: 0 <= i < |s| && i != a ==> s[i] != '@')
         && (exists d :: a + 1 < d < |s| - 1 && s[d] == '.'))
  }

  /** Every character of a plain run is plain; stated for a slice of `s`. */
  lemma PlainSlice(s: string, lo: int, hi: int, i: int)
    requires 0 <= lo <= i < hi <= |s| && PlainRun(s[lo..hi])
    ensures Plain(s[i])
  {
    assert s[lo..hi][i - lo] == s[i];
  }

  /** A slice whose characters are all plain, and which is not empty, is a plain run. */
  lemma SlicePlain(s: string, lo: int, hi: int)
    requires 0 <= lo < hi <= |s| && forall i :: lo <= i < hi ==> Plain(s[i])
    ensures PlainRun(s[lo..hi])
  {
    forall j | 0 <= j < hi - lo ensures Plain(s[lo..hi][j]) {
      assert s[lo..hi][j] == s[lo + j];
    }
  }

  /** A string the regular expression accepts has the shape. */
  lemma EmailMatchHasShape(s: string)
    requires IsValidEmail(s)
    ensures EmailShape(s)
  {
    var a, d :| 0 < a < |s| && a + 1 < d < |s| - 1 && s[a] == '@' && s[d] == '.'
      && PlainRun(s[..a]) && PlainRun(s[a + 1..d]) && PlainRun(s[d + 1..]);
    assert s[..a] == s[0..a] && s[d + 1..] == s[d + 1..|s|];
    forall i | 0 <= i < |s| && i != a ensures Plain(s[i]) {
      if i < a {
        PlainSlice(s, 0, a, i);
      } else if i < d {
        PlainSlice(s, a + 1, d, i);
      } else if i > d {
        PlainSlice(s, d + 1, |s|, i);
      }
    }
    assert forall i :: 0 <= i < |s| ==> !IsWhitespace(s[i]) by {
      forall i | 0 <= i < |s| ensures !IsWhitespace(s[i]) {
        if i != a {
          assert Plain(s[i]);
        }
      }
    }
  }

  /** A string of the shape is accepted by the regular expression. */
  lemma EmailShapeMatches(s: string)
    requires EmailShape(s)
    ensures IsValidEmail(s)
  {
    var a :| 0 < a < |s| && s[a] == '@'
      && (forall i :: 0 <= i < |s| && i != a ==> s[i] != '@')
      && (exists d :: a + 1 < d < |s| - 1 && s[d] == '.');
    var d :| a + 1 < d < |s| - 1 && s[d] == '.';
    SlicePlain(s, 0, a);
    SlicePlain(s, a + 1, d);
    SlicePlain(s, d + 1, |s|);
    assert s[..a] == s[0..a] && s[d + 1..] == s[d + 1..|s|];
  }

  /** The regular expression accepts exactly the strings of that shape. */
  lemma IsValidEmailShape(s: string)
    ensures IsValidEmail(s) <==> EmailShape(s)
  {
    if IsValidEmail(s) {
      EmailMatchHasShape(s);
    }
    if EmailShape(s) {
      EmailShapeMatches(s);
    }
  }

  // ---------------------------------------------------------------------------
  // validatePhoneOrEmail
  // ---------------------------------------------------------------------------

  /** What a form validator returns: `true`, or the message to show. */
  datatype Verdict = Accepted | Rejected(message: string)

  /** The three messages the caller of `validatePhoneOrEmail` supplies. */
  datatype Messages = Messages(invalidFormat: string, invalidEmail: string, invalidPhone: string)

  /**
   * `validatePhoneOrEmail`: an empty value has the wrong format; a value with
   * an "@" is judged as an e-mail address only; any other value as a phone
   * number through `validatePhone`.
   */
  function ValidatePhoneOrEmail(value: string, messages: Messages, isValid: string -> bool): (r: Verdict)
    ensures value == "" ==> r == Rejected(messages.invalidFormat)
    ensures value != "" && '@' in value ==>
      r == if EmailShape(value) then Accepted else Rejected(messages.invalidEmail)
    ensures value != "" && '@' !in value ==>
      r == if isValid(FormatPhoneForApi(value)) then Accepted else Rejected(messages.invalidPhone)
  {
    if value == "" then Rejected(messages.invalidFormat)
    else if '@' in value then
      IsValidEmailShape(value);
      if IsValidEmail(value) then Accepted else Rejected(messages.invalidEmail)
    else if ValidatePhone(value, isValid).None? then Rejected(messages.invalidPhone)
    else Accepted
  }

  // ---------------------------------------------------------------------------
  // Call codes and the Saudi trunk zero
  // ---------------------------------------------------------------------------

  /** An Egyptian mobile prefix: "010", "011", "012" or "015". */
  predicate EgyptianMobile(s: string)
  {
    StartsWith(s, "010") || StartsWith(s, "011") || StartsWith(s, "012") || StartsWith(s, "015")
  }

  /** A Saudi mobile prefix, with or without the trunk zero: "05" or "5". */
  predicate SaudiMobile(s: string)
  {
    StartsWith(s, "05") || StartsWith(s, "5")
  }

  /**
   * The call-code effect of the sign-in and password-reset forms: an Egyptian
   * prefix selects "+2", else a Saudi prefix "+966", else the previous code stays.
   */
  function DetectCallCode(input: string, previous: string): (code: string)
    ensures EgyptianMobile(input) ==> code == EgyptCode
    ensures SaudiMobile(input) ==> code == SaudiCode
    ensures !EgyptianMobile(input) && !SaudiMobile(input) ==> code == previous
  {
    PrefixesDisjoint(input);
    if EgyptianMobile(input) then EgyptCode
    else if SaudiMobile(input) then SaudiCode
    else previous
  }

  /** The two prefix families never overlap, so the order of the tests does not matter. */
  lemma PrefixesDisjoint(input: string)
    ensures !(EgyptianMobile(input) && SaudiMobile(input))
  {
    if EgyptianMobile(input) {
      assert input[0] == '0' && input[1] == '1';
    }
  }

  /**
   * Running the effect again on the same input changes nothing, so it does
   * not matter how often React runs it; an input with neither prefix (the
   * empty field in particular) keeps whatever code was detected before.
   */
  lemma DetectCallCodeStable(input: string, previous: string)
    ensures DetectCallCode(input, DetectCallCode(input, previous)) == DetectCallCode(input, previous)
    ensures DetectCallCode("", previous) == previous
  {
  }

  /** A value starting with "05" loses its first character; any other value is kept. */
  function StripSaudiZero(value: string): (r: string)
    ensures StartsWith(value, "05") ==> r == value[1..] && StartsWith(r, "5")
    ensures !StartsWith(value, "05") ==> r == value
  {
    if StartsWith(value, "05") then value[1..] else value
  }

  /**
   * Stripping the zero again does nothing more, and the call code detected
   * for the stripped number is the one detected for the typed number.
   */
  lemma StripSaudiZeroStable(value: string, previous: string)
    ensures StripSaudiZero(StripSaudiZero(value)) == StripSaudiZero(value)
    ensures DetectCallCode(StripSaudiZero(value), previous) == DetectCallCode(value, previous)
  {
    if StartsWith(value, "05") {
      var r := value[1..];
      assert r[0] == '5';
      assert !EgyptianMobile(r);
      assert !EgyptianMobile(value) by {
        assert value[1] == '5';
      }
    }
  }
}
