/**
 * Phone-number normalisation and the SMS verification gateway
 * (`formatPhoneNumber`, `sendOTP`, `verifyOTP` of the Twilio helper).
 * The phone-number library and the SMS provider are oracles: the parser is a
 * function supplied by the caller, and the provider's answer to a call is a
 * parameter that is only consulted when the call is really made.
 */
module Phone {
  import opened Common

  /** What the phone-number library makes of an input, with Australia as default region. */
  datatype ParseOutcome =
    | NoNumber                            // the parser returned nothing
    | Parsed(valid: bool, e164: string)   // `isValid()` and the E.164 rendering
    | Threw(message: string)              // the parser raised an error

  type Parser = string -> ParseOutcome

  // Every message is written as a lead-in, then "Please", then advice, so that the
  // word the handlers look for is visibly part of each one.
  const Please := "Please"
  const MissingMessage := Please + " enter your phone number"
  const TooShortMessage := "Phone number is too short. " + Please + " enter a valid Australian mobile number (e.g., 0412 345 678)"
  const TooLongMessage := "Phone number is too long. " + Please + " check and try again"
  const BadCharsMessage := "Phone number contains invalid characters. " + Please + " use only numbers"
  const NotAustralianMessage := Please + " enter a valid Australian mobile number (e.g., 0412 345 678 or +61 412 345 678)"
  const GenericMessage := Please + " enter a valid Australian mobile number"

  /** The class `[0-9+\s()-]`. */
  predicate IsPhoneChar(c: char) {
    '0' <= c <= '9' || c == '+' || IsSpace(c) || c == '(' || c == ')' || c == '-'
  }

  /** `/^[0-9+\s()-]+$/`. */
  predicate OnlyPhoneChars(s: string) {
    |s| > 0 && forall i :: 0 <= i < |s| ==> IsPhoneChar(s[i])
  }

  /** Why an input the parser rejected is wrong, judged on the untrimmed input. */
  function InvalidReason(s: string): string {
    if |s| < 10 then TooShortMessage
    else if |s| > 15 then TooLongMessage
    else if !OnlyPhoneChars(s) then BadCharsMessage
    else NotAustralianMessage
  }

  /** The `try` block of `formatPhoneNumber`: its value, or the message it raises. */
  function ParseAttempt(input: Option<string>, parse: Parser): Result<string, string> {
    if input.None? || Trim(input.value) == "" then Err(MissingMessage)
    else
      match parse(input.value)
      case Threw(m) => Err(m)
      case NoNumber => Err(InvalidReason(input.value))
      case Parsed(valid, e) => if valid then Ok(e) else Err(InvalidReason(input.value))
  }

  /** The `catch` block: a message that already addresses the user passes, any other is replaced. */
  function UserFacing(m: string): string {
    if Contains(m, Please) then m else GenericMessage
  }

  lemma MessagesAddressTheUser()
    ensures Contains(MissingMessage, Please) && Contains(TooShortMessage, Please)
    ensures Contains(TooLongMessage, Please) && Contains(BadCharsMessage, Please)
    ensures Contains(NotAustralianMessage, Please) && Contains(GenericMessage, Please)
  {
    ContainsInfix("", Please, " enter your phone number");
    ContainsInfix("Phone number is too short. ", Please, " enter a valid Australian mobile number (e.g., 0412 345 678)");
    ContainsInfix("Phone number is too long. ", Please, " check and try again");
    ContainsInfix("Phone number contains invalid characters. ", Please, " use only numbers");
    ContainsInfix("", Please, " enter a valid Australian mobile number (e.g., 0412 345 678 or +61 412 345 678)");
    ContainsInfix("", Please, " enter a valid Australian mobile number");
  }

  /** `formatPhoneNumber(phoneNumber)`; `None` is a missing argument. */
  function FormatPhoneNumber(input: Option<string>, parse: Parser): (r: Result<string, string>)
    ensures r.Err? ==> Contains(r.error, Please)
    ensures input.None? || Trim(input.value) == "" ==> r == Err(MissingMessage)
    ensures r.Ok? <==> input.Some? && Trim(input.value) != "" && parse(input.value).Parsed? && parse(input.value).valid
    ensures r.Ok? ==> r.value == parse(input.value).e164
    ensures input.Some? && Trim(input.value) != "" && parse(input.value).Threw? ==>
      r == Err(UserFacing(parse(input.value).message))
    ensures input.Some? && Trim(input.value) != "" && !parse(input.value).Threw? && r.Err? ==>
      var s := input.value;
      r.error == (if |s| < 10 then TooShortMessage
                  else if |s| > 15 then TooLongMessage
                  else if !OnlyPhoneChars(s) then BadCharsMessage
                  else NotAustralianMessage)
  {
    MessagesAddressTheUser();
    match ParseAttempt(input, parse)
    case Ok(e) => Ok(e)
    case Err(m) => Err(UserFacing(m))
  }

  /** Whether verification runs against a fixed code (`MOCK_OTP` set to a non-empty value) or the provider. */
  datatype OtpMode = Mock(code: string) | Live

  function ModeFrom(mockOtp: Option<string>): (m: OtpMode)
    ensures m.Mock? <==> mockOtp.Some? && mockOtp.value != ""
    ensures m.Mock? ==> m.code == mockOtp.value
  {
    match Truthy(mockOtp)
    case Some(c) => Mock(c)
    case None => Live
  }

  /** The status record the gateway hands back, as the provider reports it. */
  datatype Verification = Verification(status: string, valid: Option<bool>, to: string)

  /** The result of checking a code: `valid` is a plain boolean here. */
  datatype Check = Check(status: string, valid: bool, to: string)

  datatype OtpError =
    | BadPhone(message: string)          // raised by `formatPhoneNumber`
    | ProviderFailure(message: string)   // the provider call failed

  /** `sendOTP(phoneNumber)`; `provider` is what the provider would answer if it were called. */
  function SendOtp(input: Option<string>, parse: Parser, mode: OtpMode, provider: Result<Verification, string>)
    : (r: Result<Verification, OtpError>)
    ensures FormatPhoneNumber(input, parse).Err? ==> r == Err(BadPhone(FormatPhoneNumber(input, parse).error))
    ensures mode.Mock? && FormatPhoneNumber(input, parse).Ok? ==>
      r == Ok(Verification("pending", Some(false), FormatPhoneNumber(input, parse).value))
    ensures mode.Live? && FormatPhoneNumber(input, parse).Ok? ==>
      r == (match provider
            case Ok(v) => Ok(v)
            case Err(m) => Err(ProviderFailure("Failed to send OTP: " + m)))
  {
    match FormatPhoneNumber(input, parse)
    case Err(m) => Err(BadPhone(m))
    case Ok(to) =>
      match mode
      case Mock(_) => Ok(Verification("pending", Some(false), to))
      case Live =>
        match provider
        case Ok(v) => Ok(v)
        case Err(m) => Err(ProviderFailure("Failed to send OTP: " + m))
  }

  /** `verifyOTP(phoneNumber, otpCode)`; `provider` is the provider's verification-check answer. */
  function VerifyOtp(input: Option<string>, code: string, parse: Parser, mode: OtpMode,
                     provider: Result<Verification, string>): (r: Result<Check, OtpError>)
    ensures FormatPhoneNumber(input, parse).Err? ==> r == Err(BadPhone(FormatPhoneNumber(input, parse).error))
    ensures r.Ok? ==> FormatPhoneNumber(input, parse).Ok?
    ensures mode.Mock? && r.Ok? ==>
      r.value.to == FormatPhoneNumber(input, parse).value &&
      (r.value.valid <==> code == mode.code) &&
      r.value.status == (if r.value.valid then "approved" else "pending")
    ensures mode.Mock? ==> (r.Ok? <==> FormatPhoneNumber(input, parse).Ok?)
    ensures mode.Live? && r.Ok? ==> provider.Ok? && (r.value.valid <==> provider.value.valid == Some(true))
    ensures mode.Live? && FormatPhoneNumber(input, parse).Ok? && provider.Ok? ==>
      r == Ok(Check(provider.value.status, provider.value.valid == Some(true), provider.value.to))
    ensures mode.Live? && FormatPhoneNumber(input, parse).Ok? && provider.Err? ==>
      r == Err(ProviderFailure("Failed to verify OTP: " + provider.error))
  {
    match FormatPhoneNumber(input, parse)
    case Err(m) => Err(BadPhone(m))
    case Ok(to) =>
      match mode
      case Mock(expected) =>
        var ok := code == expected;
        Ok(Check(if ok then "approved" else "pending", ok, to))
      case Live =>
        match provider
        case Ok(v) => Ok(Check(v.status, v.valid == Some(true), v.to))
        case Err(m) => Err(ProviderFailure("Failed to verify OTP: " + m))
  }

  /** In mock mode the provider is never consulted: its answer cannot change the outcome. */
  lemma MockIgnoresProvider(input: Option<string>, code: string, parse: Parser, c: string,
                            p1: Result<Verification, string>, p2: Result<Verification, string>)
    ensures SendOtp(input, parse, Mock(c), p1) == SendOtp(input, parse, Mock(c), p2)
    ensures VerifyOtp(input, code, parse, Mock(c), p1) == VerifyOtp(input, code, parse, Mock(c), p2)
  {
  }
}
