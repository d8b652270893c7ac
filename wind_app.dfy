/** The current app's alert effect: each run with forecast data shows the analysis, and a storm
    not yet notified goes out once by push and by SMS, through the notifications hook. */
module WindApp {
  import opened Common
  import opened Config
  import opened Text
  import opened Alerts
  import N = NotificationService
  import U = UseNotifications
  import D = Dedup

  const DangerTitle: string := "🚨 ALERTĂ VÂNT PERICULOS"
  const WarningTitle: string := "⚠️ AVERTISMENT VÂNT PUTERNIC"

  /** The storm time an analysis found, as the de-dup rule sees it. */
  function StormTime(a: Analysis): Option<string> {
    if a.stormData.Some? then Some(a.stormData.value.time) else None
  }

  /** The push title: the danger title exactly for a red alert. */
  function PushTitle(level: AlertLevel): (title: string)
    ensures title == DangerTitle <==> level == Red
  {
    if level == Red then DangerTitle else WarningTitle
  }

  /** The alert state shown before any evaluation. */
  const InitialAlert: Analysis := Analysis(Unset, "", false, None)

  class App {
    const alerts: AlertService
    const notifications: U.NotificationsHook
    var notificationThreshold: int
    var alertLevel: Analysis

    constructor(alerts: AlertService, notifications: U.NotificationsHook)
      ensures this.alerts == alerts && this.notifications == notifications
      ensures notificationThreshold == DefaultThreshold && alertLevel == InitialAlert
    {
      this.alerts := alerts;
      this.notifications := notifications;
      notificationThreshold := DefaultThreshold;
      alertLevel := InitialAlert;
    }

    /** One run of the analysis effect. `now` is the clock; `pushConstructed` whether the browser
        builds the notification; `smsHttp` what the backend answers to the alert SMS. */
    method RunAlertEffect(weatherData: Option<ForecastData>, now: int, fmt: DateFormat, pushConstructed: bool, smsHttp: N.HttpOutcome)
      returns (notified: bool, push: Option<N.PushNotification>, sms: Option<N.SmsAttempt>)
      modifies this`alertLevel, alerts
      ensures weatherData.None? ==> alertLevel == old(alertLevel) && alerts.lastNotifiedStormTime == old(alerts.lastNotifiedStormTime)
      ensures weatherData.None? ==> !notified
      ensures weatherData.Some? ==> alertLevel == Analyze(weatherData, notificationThreshold, now, fmt)
      ensures weatherData.Some? ==> notified == D.Notifies(old(alerts.lastNotifiedStormTime), StormTime(alertLevel))
      ensures weatherData.Some? ==>
        alerts.lastNotifiedStormTime == D.Next(D.Current, old(alerts.lastNotifiedStormTime), StormTime(alertLevel))
      ensures push.Some? <==>
        notified && notifications.pushEnabled && notifications.service.pushPermission == Some(N.Granted) && pushConstructed
      ensures push.Some? ==> push.value == N.PushNotification(PushTitle(alertLevel.level),
        N.MergeOptions(N.DefaultPushOptions, U.BodyOption(GenerateNotificationMessage(alertLevel, fmt))))
      ensures sms == if notified && notifications.isSubscribed && notifications.phoneNumber != ""
        then Some(N.SendSmsNotification(notifications.phoneNumber, GenerateNotificationMessage(alertLevel, fmt), smsHttp))
        else None
    {
      notified, push, sms := false, None, None;
      if weatherData.None? {
        return;
      }
      var analysis := alerts.AnalyzeWeatherForecast(weatherData, notificationThreshold, now, fmt);
      alertLevel := analysis;
      if analysis.isForecast && analysis.stormData.Some? {
        notified := alerts.ShouldNotify(analysis.stormData);
      }
      if notified {
        var notificationMessage := GenerateNotificationMessage(analysis, fmt);
        if notifications.pushEnabled {
          var title := if analysis.level == Red then DangerTitle else WarningTitle;
          push := notifications.SendPushNotification(title, notificationMessage, pushConstructed);
        }
        if notifications.isSubscribed && notifications.phoneNumber != "" {
          sms := notifications.SendSmsNotification(notificationMessage, smsHttp);
        }
      }
    }

    /** `handleThresholdChange`: the slider's value, read as a decimal integer. */
    method HandleThresholdChange(value: string)
      requires ParseInt(value).Some?
      modifies this`notificationThreshold
      ensures notificationThreshold == ParseInt(value).value
    {
      notificationThreshold := ParseInt(value).value;
    }
  }
}
