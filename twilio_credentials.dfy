/** Twilio credentials: the format check run before any remote call, the mapping of a
    remote error to the message shown to the user, the in-memory credential record and the
    status view that keeps its secrets out. */
module TwilioCredentials {
  import opened PyText

  const SidFormatError := "Invalid Account SID format. It should start with 'AC' and be at least 30 characters."
  const TokenFormatError := "Invalid Auth Token format. It should be at least 30 characters."
  const PhoneFormatError := "Invalid Phone Number format. It should start with '+' (e.g., +1234567890)."

  const InvalidCredentialsError := "Invalid Account SID or Auth Token. " + "Please check your credentials."
  const UnauthorizedError := "Unauthorized. " + "Please check your Account SID and Auth Token."
  const ConnectErrorPrefix := "Failed to connect to Twilio: "
  const AccountFetchError := "Failed to validate credentials with Twilio"
  const StoredMessage := "Twilio credentials validated and connected successfully"

  predicate SidFormatOk(sid: string) {
    "AC" <= sid && |sid| >= 30
  }

  predicate TokenFormatOk(token: string) {
    |token| >= 30
  }

  predicate PhoneFormatOk(phone: string) {
    "+" <= phone && |phone| >= 10
  }

  datatype FormatCheck = FormatOk | FormatError(message: string)

  /** `validate_twilio_credentials`: the three checks run in order and the first that fails
      names the error. */
  function ValidateFormat(sid: string, token: string, phone: string): (r: FormatCheck)
    ensures r == FormatOk <==> SidFormatOk(sid) && TokenFormatOk(token) && PhoneFormatOk(phone)
    ensures !SidFormatOk(sid) ==> r == FormatError(SidFormatError)
    ensures SidFormatOk(sid) && !TokenFormatOk(token) ==> r == FormatError(TokenFormatError)
    ensures SidFormatOk(sid) && TokenFormatOk(token) && !PhoneFormatOk(phone) ==> r == FormatError(PhoneFormatError)
  {
    if !("AC" <= sid) || |sid| < 30 then FormatError(SidFormatError)
    else if |token| < 30 then FormatError(TokenFormatError)
    else if !("+" <= phone) || |phone| < 10 then FormatError(PhoneFormatError)
    else FormatOk
  }

  /** The remote error text says the account SID or the token was refused. */
  predicate RefusesCredentials(message: string) {
    Contains(message, "20003") || Contains(message, "Authenticate") || Contains(message, "Invalid")
  }

  /** The message shown for an exception raised while fetching the account. */
  function TwilioErrorMessage(message: string): (r: string)
    ensures r == InvalidCredentialsError <==> RefusesCredentials(message)
    ensures r == UnauthorizedError <==> !RefusesCredentials(message) && Contains(message, "20001")
    ensures ConnectErrorPrefix <= r <==> !RefusesCredentials(message) && !Contains(message, "20001")
    ensures ConnectErrorPrefix <= r ==> r[|ConnectErrorPrefix|..] == message
  {
    assert InvalidCredentialsError[0] == 'I' && UnauthorizedError[0] == 'U' && ConnectErrorPrefix[0] == 'F';
    if RefusesCredentials(message) then InvalidCredentialsError
    else if Contains(message, "20001") then UnauthorizedError
    else ConnectErrorPrefix + message
  }

  /** What `accounts(sid).fetch()` did: returned a (truthy) account, returned a falsy
      value, or raised. */
  datatype AccountFetch = AccountFound | AccountFalsy | FetchRaised(message: string)

  /** What `incoming_phone_numbers.list(phone_number=..., limit=1)` did. */
  datatype PhoneLookup = NumberListed | NumberNotListed | LookupRaised(message: string)

  /** A request made to the Twilio REST API. */
  datatype TwilioCall = FetchAccount(accountSid: string) | ListIncomingNumbers(phoneNumber: string)

  /** The JSON answer of the credential endpoint: status "success" with a message, or
      status "error" with an error. */
  datatype SetResponse = Stored(message: string) | Rejected(error: string)

  /** The Twilio requests one attempt to set credentials made, and its answer. */
  datatype SetAttempt = SetAttempt(calls: seq<TwilioCall>, response: SetResponse)

  /** A Python value used for its truthiness. */
  datatype PyValue = PyBool(b: bool) | PyStr(s: string) {
    predicate Truthy() {
      if PyBool? then b else s != []
    }
  }

  /** The JSON answer of the credential status endpoint; it has no place for the token. */
  datatype CredentialStatus = CredentialStatus(configured: PyValue, phoneNumber: string, accountSidPreview: string)

  /** The status view of a credential record. `configured` is the value of the Python `and`
      chain, so a configured record reports its phone number there. */
  function StatusView(sid: string, token: string, phone: string, uiSet: bool): (v: CredentialStatus)
    ensures v.configured.Truthy() <==> uiSet && sid != [] && token != [] && phone != []
    ensures !v.configured.Truthy() ==> v.phoneNumber == [] && v.accountSidPreview == []
    ensures v.configured.Truthy() ==> v.phoneNumber == phone && v.accountSidPreview == Take(sid, 10) + "..."
  {
    var configured :=
      if !uiSet then PyBool(false)
      else if sid == [] then PyStr(sid)
      else if token == [] then PyStr(token)
      else PyStr(phone);
    if configured.Truthy() then CredentialStatus(configured, phone, Take(sid, 10) + "...")
    else CredentialStatus(configured, "", "")
  }

  /** The token reaches the status view only through whether it is empty. */
  lemma StatusHidesToken(sid: string, token1: string, token2: string, phone: string, uiSet: bool)
    requires (token1 == []) == (token2 == [])
    ensures StatusView(sid, token1, phone, uiSet) == StatusView(sid, token2, phone, uiSet)
  {
  }

  /** Credentials that passed the format check and were stored through the UI report as
      configured, with the phone number and a 13-character preview starting "AC". */
  lemma AcceptedCredentialsReportConfigured(sid: string, token: string, phone: string)
    requires ValidateFormat(sid, token, phone) == FormatOk
    ensures var v := StatusView(sid, token, phone, true);
            && v == CredentialStatus(PyStr(phone), phone, sid[..10] + "...")
            && |v.accountSidPreview| == 13 && "AC" <= v.accountSidPreview
  {
  }

  /** `set_twilio_credentials`: the format check, then the account fetch, then the phone
      number lookup, whose own failure is ignored. The two applications differ only in the
      text that follows the phone number when the lookup comes back empty. */
  function SetCredentialsAttempt(sid: string, token: string, phone: string, fetch: AccountFetch,
                                 lookup: PhoneLookup, notFoundSuffix: string): SetAttempt
  {
    match ValidateFormat(sid, token, phone)
    case FormatError(message) => SetAttempt([], Rejected(message))
    case FormatOk =>
      match fetch
      case FetchRaised(message) => SetAttempt([FetchAccount(sid)], Rejected(TwilioErrorMessage(message)))
      case AccountFalsy => SetAttempt([FetchAccount(sid)], Rejected(AccountFetchError))
      case AccountFound =>
        var calls := [FetchAccount(sid), ListIncomingNumbers(phone)];
        if lookup.NumberNotListed? then SetAttempt(calls, Rejected("Phone number " + phone + notFoundSuffix))
        else SetAttempt(calls, Stored(StoredMessage))
  }

  /** Malformed credentials are refused with the first failing check's message before any
      Twilio request, whatever Twilio would have answered. */
  lemma FormatErrorMakesNoCall(sid: string, token: string, phone: string, fetch: AccountFetch, lookup: PhoneLookup, notFoundSuffix: string)
    requires ValidateFormat(sid, token, phone).FormatError?
    ensures SetCredentialsAttempt(sid, token, phone, fetch, lookup, notFoundSuffix)
         == SetAttempt([], Rejected(ValidateFormat(sid, token, phone).message))
  {
  }

  /** Credentials are stored exactly when they are well formed, the account fetch returned
      an account and the lookup did not come back empty (a lookup that raised counts as
      passed); a fetch that raised is reported through the error mapping. */
  lemma CredentialsStoredExactlyOnSuccess(sid: string, token: string, phone: string,
                                          fetch: AccountFetch, lookup: PhoneLookup, notFoundSuffix: string)
    ensures var a := SetCredentialsAttempt(sid, token, phone, fetch, lookup, notFoundSuffix);
            && (a.response.Stored? <==> ValidateFormat(sid, token, phone) == FormatOk
                                        && fetch.AccountFound? && !lookup.NumberNotListed?)
            && (a.response.Stored? ==> a.response.message == StoredMessage)
            && (ValidateFormat(sid, token, phone) == FormatOk && fetch.FetchRaised? ==>
                  a == SetAttempt([FetchAccount(sid)], Rejected(TwilioErrorMessage(fetch.message))))
  {
  }

  /** Twilio is asked about the account first, and about the phone number only once the
      account was found; nothing is asked for credentials that fail the format check. */
  lemma CredentialRequestsInOrder(sid: string, token: string, phone: string,
                                  fetch: AccountFetch, lookup: PhoneLookup, notFoundSuffix: string)
    ensures var a := SetCredentialsAttempt(sid, token, phone, fetch, lookup, notFoundSuffix);
            && (a.calls == [] <==> ValidateFormat(sid, token, phone) != FormatOk)
            && (a.calls != [] ==> a.calls[0] == FetchAccount(sid))
            && (ListIncomingNumbers(phone) in a.calls <==> ValidateFormat(sid, token, phone) == FormatOk && fetch.AccountFound?)
            && |a.calls| <= 2
  {
  }

  /** The module-level credential dict: `account_sid`, `auth_token`, `phone_number` and
      `ui_set`. */
  class CredentialStore {
    var accountSid: string
    var authToken: string
    var phoneNumber: string
    var uiSet: bool

    /** Credentials set through the UI always passed the format check. */
    ghost predicate Valid()
      reads this
    {
      uiSet ==> ValidateFormat(accountSid, authToken, phoneNumber) == FormatOk
    }

    /** The record at start-up, filled from the environment and not marked as UI-set. */
    constructor (envSid: string, envToken: string, envPhone: string)
      ensures Valid()
      ensures accountSid == envSid && authToken == envToken && phoneNumber == envPhone && !uiSet
    {
      accountSid, authToken, phoneNumber, uiSet := envSid, envToken, envPhone, false;
    }

    /** `get_twilio_credentials`: a store is reported configured exactly when it was set
        through the UI, whatever the environment held. */
    function Status(): (v: CredentialStatus)
      reads this
      ensures Valid() ==> (v.configured.Truthy() <==> uiSet)
      ensures Valid() && uiSet ==> v.accountSidPreview == accountSid[..10] + "..."
    {
      StatusView(accountSid, authToken, phoneNumber, uiSet)
    }

    /** The four assignments of the success path. */
    method Store(sid: string, token: string, phone: string)
      requires ValidateFormat(sid, token, phone) == FormatOk
      modifies this
      ensures Valid()
      ensures accountSid == sid && authToken == token && phoneNumber == phone && uiSet
    {
      accountSid := sid;
      authToken := token;
      phoneNumber := phone;
      uiSet := true;
    }
  }
}
