/** The browser-side notification service: the recorded push permission, push notifications with
    default options, the guarded SMS request to the backend, and the phone-number check. */
module NotificationService {
  import opened Common
  import opened Text
  import opened PhoneFormat

  datatype Permission = Granted | Denied | Default

  /** A value of a notification options object. */
  datatype OptionValue = TextValue(text: string) | FlagValue(flag: bool)

  /** A notification shown by the browser (`new Notification(title, options)`). */
  datatype PushNotification = PushNotification(title: string, options: map<string, OptionValue>)

  const DefaultPushOptions: map<string, OptionValue> := map[
    "icon" := TextValue("/wind-icon.png"),
    "badge" := TextValue("/wind-badge.png"),
    "tag" := TextValue("wind-alert"),
    "requireInteraction" := FlagValue(true)]

  /** `{ ...defaults, ...options }`: every key of either, the caller's value winning. */
  function MergeOptions(defaults: map<string, OptionValue>, options: map<string, OptionValue>): (merged: map<string, OptionValue>)
    ensures merged.Keys == defaults.Keys + options.Keys
    ensures forall k :: k in options ==> merged[k] == options[k]
    ensures forall k :: k in defaults && k !in options ==> merged[k] == defaults[k]
  {
    defaults + options
  }

  /** The JSON body the backend answers a send-SMS request with. */
  datatype SmsReply = SmsReply(success: bool, error: Option<string>, sid: Option<string>)

  /** What `fetch` and `response.json()` give for the send-SMS request. */
  datatype HttpOutcome =
    | NetworkError(reason: string)
    | HttpResponse(ok: bool, status: int, body: SmsReply)

  /** The outcome of `sendSMSNotification`: whether the backend was contacted, and the returned
      result or the message of the error thrown. */
  datatype SmsAttempt = SmsAttempt(contacted: bool, result: Result<SmsReply, string>)

  const NoPushSupport: string := "Browserul nu suportă notificări push"
  const PushRefused: string := "Permisiunea pentru notificări a fost refuzată"
  const PhoneAndMessageRequired: string := "Numărul de telefon și mesajul sunt obligatorii"
  const PhoneFormatInvalid: string := "Formatul numărului de telefon este invalid"
  const UnknownSmsError: string := "Eroare necunoscută la trimiterea SMS-ului"

  /** `validatePhoneNumber`. */
  predicate ValidatePhoneNumber(phoneNumber: string)
    ensures ValidatePhoneNumber(phoneNumber) ==> 8 <= |phoneNumber| <= 16 && phoneNumber[0] == '+'
  {
    IsE164(phoneNumber)
  }

  /** `sendSMSNotification`: a missing phone or message, or a malformed phone, fails before any
      request; otherwise the reply is returned when the response is ok and reports success, and
      every other outcome is thrown. */
  function SendSmsNotification(phoneNumber: string, message: string, http: HttpOutcome): (a: SmsAttempt)
    ensures !a.contacted <==> phoneNumber == "" || message == "" || !ValidatePhoneNumber(phoneNumber)
    ensures a.result.Ok? <==> a.contacted && http.HttpResponse? && http.ok && http.body.success
    ensures a.result.Ok? ==> a.result.value == http.body
    ensures phoneNumber == "" || message == "" ==> a.result == Err(PhoneAndMessageRequired)
    ensures phoneNumber != "" && message != "" && !ValidatePhoneNumber(phoneNumber) ==> a.result == Err(PhoneFormatInvalid)
    ensures a.contacted && http.NetworkError? ==> a.result == Err(http.reason)
    ensures a.contacted && http.HttpResponse? && !http.ok ==>
      a.result == Err("HTTP error! status: " + IntToString(http.status))
    ensures a.contacted && http.HttpResponse? && http.ok && !http.body.success && (http.body.error.None? || http.body.error.value == "")
      ==> a.result == Err(UnknownSmsError)
    ensures a.contacted && http.HttpResponse? && http.ok && !http.body.success && http.body.error.Some? && http.body.error.value != ""
      ==> a.result == Err(http.body.error.value)
  {
    if phoneNumber == "" || message == "" then SmsAttempt(false, Err(PhoneAndMessageRequired))
    else if !ValidatePhoneNumber(phoneNumber) then SmsAttempt(false, Err(PhoneFormatInvalid))
    else
      match http
      case NetworkError(reason) => SmsAttempt(true, Err(reason))
      case HttpResponse(ok, status, body) =>
        if !ok then SmsAttempt(true, Err("HTTP error! status: " + IntToString(status)))
        else if !body.success then
          SmsAttempt(true, Err(if body.error.Some? && body.error.value != "" then body.error.value else UnknownSmsError))
        else SmsAttempt(true, Ok(body))
  }

  class NotificationService {
    /** The last permission read from or granted by the browser; None before any was read. */
    var pushPermission: Option<Permission>

    /** The constructor runs `checkPushPermission`. */
    constructor(supported: bool, browserPermission: Permission)
      ensures pushPermission == if supported then Some(browserPermission) else None
    {
      pushPermission := None;
      if supported {
        pushPermission := Some(browserPermission);
      }
    }

    /** `checkPushPermission`: copy the browser's permission when the browser has notifications. */
    method CheckPushPermission(supported: bool, browserPermission: Permission)
      modifies this
      ensures pushPermission == if supported then Some(browserPermission) else old(pushPermission)
    {
      if supported {
        pushPermission := Some(browserPermission);
      }
    }

    /** `requestPushPermission`: `answer` is the user's answer to the browser's prompt. The answer
        is recorded whatever it is; only a grant succeeds. */
    method RequestPushPermission(supported: bool, answer: Permission) returns (r: Result<Permission, string>)
      modifies this
      ensures !supported ==> r == Err(NoPushSupport) && pushPermission == old(pushPermission)
      ensures supported ==> pushPermission == Some(answer)
      ensures supported ==> r == if answer == Granted then Ok(Granted) else Err(PushRefused)
    {
      if !supported {
        return Err(NoPushSupport);
      }
      pushPermission := Some(answer);
      if answer != Granted {
        return Err(PushRefused);
      }
      return Ok(answer);
    }

    /** `sendPushNotification`: nothing without a granted permission; otherwise the notification
        with the default options overridden by the caller's. `constructed` is whether the browser's
        Notification constructor succeeded (its failure is caught). */
    method SendPushNotification(title: string, options: map<string, OptionValue>, constructed: bool)
      returns (n: Option<PushNotification>)
      ensures pushPermission != Some(Granted) ==> n.None?
      ensures n.Some? <==> pushPermission == Some(Granted) && constructed
      ensures n.Some? ==> n.value.title == title && n.value.options == MergeOptions(DefaultPushOptions, options)
    {
      if pushPermission != Some(Granted) {
        return None;
      }
      var defaultOptions := DefaultPushOptions + options;
      if !constructed {
        return None;
      }
      return Some(PushNotification(title, defaultOptions));
    }
  }
}
