/** The backend's Twilio wrapper: a credential guard at construction, the mapping from a Twilio
    error to the message shown to the user, and the number lookup's 404 handling. The Twilio
    client's replies are parameters. */
module TwilioService {
  import opened Common

  const IncompleteEnvironment: string := "Variabilele de mediu Twilio nu sunt complete"
  const InvalidNumberMessage: string := "Numărul de telefon este invalid"
  const NoPermissionMessage: string := "Nu aveți permisiunea să trimiteți SMS la acest număr"
  const NotSmsCapableMessage: string := "Numărul de telefon nu este valid pentru SMS"
  const BadRequestMessage: string := "Datele trimise sunt invalide"
  const AuthFailedMessage: string := "Eroare de autentificare Twilio"
  const GenericSendMessage: string := "Eroare la trimiterea SMS-ului"
  const LookupNotValid: string := "Numărul de telefon nu este valid"
  const LookupFailed: string := "Nu s-a putut valida numărul de telefon"

  /** An error thrown by the Twilio client: its Twilio error `code` and its HTTP `status`, either
      of which may be absent. */
  datatype TwilioError = TwilioError(code: Option<int>, status: Option<int>)
  /** What the client returns for a created message. */
  datatype MessageResource = MessageResource(sid: string, status: string)
  /** The parameters passed to `messages.create`. */
  datatype MessageRequest = MessageRequest(body: string, from: string, to: string)
  /** The object `sendSMS` resolves with. */
  datatype SmsSent = SmsSent(success: bool, sid: string, status: string)
  /** What the client's number lookup returns. */
  datatype LookupResult = LookupResult(phoneNumber: string, countryCode: string, carrier: string)
  /** The object `validatePhoneNumber` resolves with; both shapes carry `success: true`. */
  datatype Validation =
    | Valid(formatted: string, countryCode: string, carrier: string)
    | NotValid(error: string)

  /** A configuration value is usable when it is set and not empty. */
  predicate Present(v: Option<string>) {
    v.Some? && v.value != ""
  }

  /** The if/else chain of `sendSMS`'s error handler: a known Twilio code decides first, then a
      known HTTP status, then the generic text. */
  function UserMessage(e: TwilioError): (m: string)
    ensures m != ""
  {
    if e.code == Some(21211) then InvalidNumberMessage
    else if e.code == Some(21408) then NoPermissionMessage
    else if e.code == Some(21614) then NotSmsCapableMessage
    else if e.status == Some(400) then BadRequestMessage
    else if e.status == Some(401) then AuthFailedMessage
    else GenericSendMessage
  }

  /** The same decision written as two lookup tables. */
  const CodeMessages: map<int, string> :=
    map[21211 := InvalidNumberMessage, 21408 := NoPermissionMessage, 21614 := NotSmsCapableMessage]
  const StatusMessages: map<int, string> :=
    map[400 := BadRequestMessage, 401 := AuthFailedMessage]

  /** The if/else chain agrees with the tables: codes first, statuses second, generic otherwise. */
  lemma UserMessageMatchesTables(e: TwilioError)
    ensures e.code.Some? && e.code.value in CodeMessages ==> UserMessage(e) == CodeMessages[e.code.value]
    ensures !(e.code.Some? && e.code.value in CodeMessages) && e.status.Some? && e.status.value in StatusMessages ==>
      UserMessage(e) == StatusMessages[e.status.value]
    ensures !(e.code.Some? && e.code.value in CodeMessages) && !(e.status.Some? && e.status.value in StatusMessages) ==>
      UserMessage(e) == GenericSendMessage
  {
  }

  /** A known code wins over any status, and the status is consulted only for unknown codes. */
  lemma CodeTakesPriority(code: int, s1: Option<int>, s2: Option<int>)
    requires code in CodeMessages
    ensures UserMessage(TwilioError(Some(code), s1)) == UserMessage(TwilioError(Some(code), s2))
    ensures UserMessage(TwilioError(Some(21211), Some(401))) == InvalidNumberMessage
  {
  }

  class TwilioService {
    const accountSid: string
    const authToken: string
    const phoneNumber: string

    constructor(accountSid: string, authToken: string, phoneNumber: string)
      ensures this.accountSid == accountSid && this.authToken == authToken && this.phoneNumber == phoneNumber
    {
      this.accountSid := accountSid;
      this.authToken := authToken;
      this.phoneNumber := phoneNumber;
    }

    /** `sendSMS`: the request carries the configured sender; a created message resolves with
        `success: true`, and every client error becomes a thrown user message. */
    method SendSms(to: string, message: string, reply: Result<MessageResource, TwilioError>)
      returns (request: MessageRequest, r: Result<SmsSent, string>)
      ensures request == MessageRequest(message, phoneNumber, to)
      ensures r.Ok? <==> reply.Ok?
      ensures r.Ok? ==> r.value.success && r.value.sid == reply.value.sid && r.value.status == reply.value.status
      ensures r.Err? ==> r.error == UserMessage(reply.error)
    {
      request := MessageRequest(message, phoneNumber, to);
      if reply.Ok? {
        r := Ok(SmsSent(true, reply.value.sid, reply.value.status));
      } else {
        var userMessage := GenericSendMessage;
        var e := reply.error;
        if e.code == Some(21211) {
          userMessage := InvalidNumberMessage;
        } else if e.code == Some(21408) {
          userMessage := NoPermissionMessage;
        } else if e.code == Some(21614) {
          userMessage := NotSmsCapableMessage;
        } else if e.status == Some(400) {
          userMessage := BadRequestMessage;
        } else if e.status == Some(401) {
          userMessage := AuthFailedMessage;
        }
        r := Err(userMessage);
      }
    }

    /** `validatePhoneNumber`: a successful lookup is a valid number, a 404 is a well-formed
        "not valid" answer, and any other error fails. `lookup` is the client's lookup outcome. */
    method ValidatePhoneNumber(lookup: Result<LookupResult, TwilioError>) returns (r: Result<Validation, string>)
      ensures lookup.Ok? ==> r == Ok(Valid(lookup.value.phoneNumber, lookup.value.countryCode, lookup.value.carrier))
      ensures lookup.Err? && lookup.error.status == Some(404) ==> r == Ok(NotValid(LookupNotValid))
      ensures r.Err? <==> lookup.Err? && lookup.error.status != Some(404)
      ensures r.Err? ==> r.error == LookupFailed
    {
      if lookup.Ok? {
        r := Ok(Valid(lookup.value.phoneNumber, lookup.value.countryCode, lookup.value.carrier));
      } else if lookup.error.status == Some(404) {
        r := Ok(NotValid(LookupNotValid));
      } else {
        r := Err(LookupFailed);
      }
    }
  }

  /** The constructor: a service exists only when all three credentials are present and the
      Twilio library's factory accepts them. `clientError` is the factory's outcome: None when it
      returns a client, or the message of the error it throws, which is not caught. */
  method CreateTwilioService(accountSid: Option<string>, authToken: Option<string>, phoneNumber: Option<string>,
                             clientError: Option<string>)
    returns (r: Result<TwilioService, string>)
    ensures r.Ok? <==> Present(accountSid) && Present(authToken) && Present(phoneNumber) && clientError.None?
    ensures !(Present(accountSid) && Present(authToken) && Present(phoneNumber)) ==> r == Err(IncompleteEnvironment)
    ensures Present(accountSid) && Present(authToken) && Present(phoneNumber) && clientError.Some? ==>
      r == Err(clientError.value)
    ensures r.Ok? ==>
      r.value.accountSid == accountSid.value && r.value.authToken == authToken.value && r.value.phoneNumber == phoneNumber.value
  {
    if !Present(accountSid) || !Present(authToken) || !Present(phoneNumber) {
      return Err(IncompleteEnvironment);
    }
    if clientError.Some? {
      return Err(clientError.value);
    }
    var service := new TwilioService(accountSid.value, authToken.value, phoneNumber.value);
    r := Ok(service);
  }
}
