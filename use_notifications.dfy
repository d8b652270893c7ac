/** The notifications hook: four state cells (push enabled, phone number, subscribed, backend
    connected) changed by its action callbacks, each callback one sequential transition. */
module UseNotifications {
  import opened Common
  import N = NotificationService

  const WelcomeTitle: string := "Notificări Activate!"
  const WelcomeBody: string := "Veți primi avertismente de vânt prognozate."
  const PushFailurePrefix: string := "Nu s-au putut activa notificările push: "
  const ConfirmationText: string := "🌪️ Ați fost abonat cu succes la alertele de vânt pentru București. Veți primi notificări când se prognozează vânt puternic."
  const EnterValidPhone: string := "Introduceți un număr de telefon valid"
  const BackendUnavailable: string := "Backend-ul nu este disponibil. Încercați mai târziu."
  const ErrorPrefix: string := "Eroare: "

  /** The options object `{ body: message }`. */
  function BodyOption(message: string): map<string, N.OptionValue> {
    map["body" := N.TextValue(message)]
  }

  class NotificationsHook {
    const service: N.NotificationService
    var pushEnabled: bool
    var phoneNumber: string
    var isSubscribed: bool
    var backendConnected: bool

    constructor(service: N.NotificationService)
      ensures this.service == service
      ensures !pushEnabled && phoneNumber == "" && !isSubscribed && backendConnected
    {
      this.service := service;
      pushEnabled := false;
      phoneNumber := "";
      isSubscribed := false;
      backendConnected := true;
    }

    /** `togglePushNotifications`: disabling always succeeds; enabling asks for permission and
        succeeds, with a welcome notification, only when it is granted. `alertText` is the text
        shown to the user on failure. */
    method TogglePushNotifications(supported: bool, answer: N.Permission, constructed: bool)
      returns (welcome: Option<N.PushNotification>, alertText: Option<string>)
      modifies this`pushEnabled, service
      ensures old(pushEnabled) ==> !pushEnabled && welcome.None? && alertText.None?
      ensures old(pushEnabled) ==> service.pushPermission == old(service.pushPermission)
      ensures !old(pushEnabled) ==> pushEnabled == (supported && answer == N.Granted)
      ensures !old(pushEnabled) && supported ==> service.pushPermission == Some(answer)
      ensures !old(pushEnabled) && !supported ==> service.pushPermission == old(service.pushPermission)
      ensures !old(pushEnabled) && !pushEnabled ==> welcome.None? && alertText.Some?
      ensures !old(pushEnabled) && pushEnabled ==> alertText.None?
      ensures !old(pushEnabled) && pushEnabled ==>
        welcome == if constructed then Some(N.PushNotification(WelcomeTitle, N.MergeOptions(N.DefaultPushOptions, BodyOption(WelcomeBody)))) else None
    {
      welcome, alertText := None, None;
      if !pushEnabled {
        var granted := service.RequestPushPermission(supported, answer);
        if granted.Err? {
          alertText := Some(PushFailurePrefix + granted.error);
          return;
        }
        pushEnabled := true;
        welcome := service.SendPushNotification(WelcomeTitle, BodyOption(WelcomeBody), constructed);
      } else {
        pushEnabled := false;
      }
    }

    /** The hook's `sendPushNotification`: forwards to the service only while push is enabled. */
    method SendPushNotification(title: string, message: string, constructed: bool) returns (n: Option<N.PushNotification>)
      ensures !pushEnabled ==> n.None?
      ensures n.Some? <==> pushEnabled && service.pushPermission == Some(N.Granted) && constructed
      ensures n.Some? ==> n.value == N.PushNotification(title, N.MergeOptions(N.DefaultPushOptions, BodyOption(message)))
    {
      n := None;
      if pushEnabled {
        n := service.SendPushNotification(title, BodyOption(message), constructed);
      }
    }

    /** `updatePhoneNumber`: store the number; a subscription survives only an unchanged number. */
    method UpdatePhoneNumber(phone: string)
      modifies this`phoneNumber, this`isSubscribed
      ensures phoneNumber == phone
      ensures isSubscribed == (old(isSubscribed) && phone == old(phoneNumber))
    {
      var previous := phoneNumber;
      phoneNumber := phone;
      if isSubscribed && phone != previous {
        isSubscribed := false;
      }
    }

    /** `toggleSMSSubscription`. An empty or malformed number changes nothing. Unsubscribing is
        local. Subscribing records whether the backend is reachable (`reachable` is the outcome of
        the health check) and succeeds only when it is and the confirmation SMS goes through.
        `http` is what the confirmation request gets back. */
    method ToggleSmsSubscription(reachable: bool, http: N.HttpOutcome)
      returns (attempt: Option<N.SmsAttempt>, alertText: Option<string>)
      modifies this`isSubscribed, this`backendConnected
      ensures !N.ValidatePhoneNumber(phoneNumber) ==>
        isSubscribed == old(isSubscribed) && backendConnected == old(backendConnected) && attempt.None? && alertText.Some?
      ensures N.ValidatePhoneNumber(phoneNumber) && old(isSubscribed) ==>
        !isSubscribed && backendConnected == old(backendConnected) && attempt.None? && alertText.None?
      ensures N.ValidatePhoneNumber(phoneNumber) && !old(isSubscribed) ==>
        && backendConnected == reachable
        && (attempt.Some? <==> reachable)
        && (attempt.Some? ==> attempt.value == N.SendSmsNotification(phoneNumber, ConfirmationText, http))
        && (isSubscribed <==> attempt.Some? && attempt.value.result.Ok?)
        && (alertText.None? <==> isSubscribed)
    {
      attempt, alertText := None, None;
      if phoneNumber == "" {
        alertText := Some(ErrorPrefix + EnterValidPhone);
        return;
      }
      if !N.ValidatePhoneNumber(phoneNumber) {
        alertText := Some(ErrorPrefix + N.PhoneFormatInvalid);
        return;
      }
      if !isSubscribed {
        var isConnected := reachable;
        backendConnected := isConnected;
        if !isConnected {
          alertText := Some(ErrorPrefix + BackendUnavailable);
          return;
        }
        var sent := N.SendSmsNotification(phoneNumber, ConfirmationText, http);
        attempt := Some(sent);
        if sent.result.Err? {
          alertText := Some(ErrorPrefix + sent.result.error);
          return;
        }
        isSubscribed := true;
      } else {
        isSubscribed := false;
      }
    }

    /** The hook's `sendSMSNotification`: sends only while subscribed with a number; a failure is
        swallowed and no state changes. */
    method SendSmsNotification(message: string, http: N.HttpOutcome) returns (attempt: Option<N.SmsAttempt>)
      ensures attempt == if isSubscribed && phoneNumber != "" then Some(N.SendSmsNotification(phoneNumber, message, http)) else None
    {
      attempt := None;
      if isSubscribed && phoneNumber != "" {
        attempt := Some(N.SendSmsNotification(phoneNumber, message, http));
      }
    }
  }
}
