/** The earlier single-file app: its own inline forecast evaluator (wind only, no gust), its
    de-dup cell that a storm-free result clears, and the handlers of its settings panel. */
module LegacyApp {
  import opened Common
  import opened Text
  import opened Config
  import opened Alerts
  import PhoneFormat
  import D = Dedup

  const StormTitle: string := "Avertisment Furtună Prognozată"
  const StormIcon: string := "/wind-icon.png"
  const EnabledTitle: string := "Notificări Activat!"
  const EnabledBody: string := "Vei primi avertismente de vânt prognozate."
  const SubscribedText: string := "Ați fost abonat cu succes la alertele de vânt."

  /** The threshold cell: a number initially, then the slider's raw string, which the threshold
      handler stores without converting it. */
  datatype Threshold = Number(n: int) | SliderText(s: string)

  /** The number JavaScript's `>=` compares against: a string converts as a decimal numeral, the
      empty string as 0, and anything else as NaN (None). */
  function ThresholdNumber(t: Threshold): (v: Option<int>)
    ensures t.Number? ==> v == Some(t.n)
    ensures t.SliderText? && t.s == "" ==> v == Some(0)
    ensures t.SliderText? && |t.s| > 0 && AllDigits(t.s) ==> v == Some(DigitsValue(t.s))
  {
    match t
    case Number(n) => Some(n)
    case SliderText(s) => if s == "" then Some(0) else if AllDigits(s) then Some(DigitsValue(s)) else None
  }

  /** `speed >= threshold`, false against NaN. */
  predicate ReachesThreshold(speed: int, t: Threshold) {
    ThresholdNumber(t).Some? && speed >= ThresholdNumber(t).value
  }

  /** The alert state of this app, which has no storm data field. */
  datatype LegacyAlert = LegacyAlert(level: AlertLevel, message: string, isForecast: bool)
  /** The storm the inline evaluator records: its time key and its wind speed in km/h. */
  datatype LegacyStorm = LegacyStorm(time: string, speed: int)
  /** A message leaving the app: a browser notification or a request to the SMS backend. */
  datatype Outgoing =
    | BrowserNotification(title: string, body: string, icon: Option<string>)
    | TwilioRequest(to: string, message: string)

  /** A sample is a storm for this app when it lies in the window and its wind alone reaches the
      threshold. */
  predicate LegacyIsStorm(s: ForecastSample, now: int, t: Threshold) {
    InWindow(s, now) && ReachesThreshold(WindKmh(s), t)
  }

  function LegacyStormTest(now: int, t: Threshold): ForecastSample -> bool {
    s => LegacyIsStorm(s, now, t)
  }

  function StormOfSample(s: ForecastSample): LegacyStorm {
    LegacyStorm(s.dtTxt, WindKmh(s))
  }

  /** The storm of a list: the first sample, in list order, that is a storm for this app. */
  function FindStorm(list: seq<ForecastSample>, now: int, t: Threshold): (r: Option<LegacyStorm>)
    ensures r.None? <==> forall i :: 0 <= i < |list| ==> !LegacyIsStorm(list[i], now, t)
    ensures r.Some? ==> exists i :: (0 <= i < |list| && LegacyIsStorm(list[i], now, t) && r.value == StormOfSample(list[i])
      && forall j :: 0 <= j < i ==> !LegacyIsStorm(list[j], now, t))
  {
    var p := LegacyStormTest(now, t);
    match FirstIndex(list, p)
    case None => None
    case Some(i) =>
      assert p(list[i]);
      Some(StormOfSample(list[i]))
  }

  /** The grade of a storm: red from 70 km/h, else yellow. */
  function LegacySeverity(speed: int): (level: AlertLevel)
    ensures level == Red <==> speed >= RedThreshold
    ensures level != Red ==> level == Yellow
  {
    if speed >= 70 then Red else Yellow
  }

  /** The alert text; it is the current evaluator's text for a storm without a stronger gust. */
  function LegacyMessage(st: LegacyStorm, fmt: DateFormat): (m: string)
    ensures m == WarningMessage(StormEvent(st.time, st.speed, st.speed, 0.0, None), fmt)
  {
    WarningLead(st.speed) + WarningWhen(fmt.date(st.time), fmt.time(st.time))
  }

  function StormTimeOf(st: Option<LegacyStorm>): Option<string> {
    if st.Some? then Some(st.value.time) else None
  }

  /** Gust values play no part in this app's evaluation. */
  lemma LegacyIgnoresGust(list: seq<ForecastSample>, other: seq<ForecastSample>, now: int, t: Threshold)
    requires |list| == |other|
    requires forall i :: 0 <= i < |list| ==> other[i] == list[i].(gust := other[i].gust)
    ensures FindStorm(list, now, t) == FindStorm(other, now, t)
  {
    var p := LegacyStormTest(now, t);
    FirstIndexFromAgrees(list, p, other, p, 0);
  }

  /** Storing the slider's string does not change which samples are storms: the numeral compares
      as its value. */
  lemma SliderTextComparesAsNumber(list: seq<ForecastSample>, now: int, s: string)
    requires |s| > 0 && AllDigits(s)
    ensures FindStorm(list, now, SliderText(s)) == FindStorm(list, now, Number(DigitsValue(s)))
  {
    FirstIndexFromAgrees(list, LegacyStormTest(now, SliderText(s)), list, LegacyStormTest(now, Number(DigitsValue(s))), 0);
  }

  /** With a NaN threshold the app never reports a storm. */
  lemma NonNumericThresholdNeverAlerts(list: seq<ForecastSample>, now: int, s: string)
    requires ThresholdNumber(SliderText(s)).None?
    ensures FindStorm(list, now, SliderText(s)).None?
  {
  }

  /** Where no gust is stronger than the wind, this evaluator agrees with the current one: the
      same storm time, speed, grade and text, and a storm for one exactly when for the other. */
  lemma LegacyAgreesWithCurrentWithoutStrongerGusts(list: seq<ForecastSample>, now: int, threshold: int, fmt: DateFormat)
    requires |list| > 0
    requires forall i :: 0 <= i < |list| ==> GustKmh(list[i]) <= WindKmh(list[i])
    ensures var a := Analyze(Some(ForecastData(Some(list))), threshold, now, fmt);
      var st := FindStorm(list, now, Number(threshold));
      && (st.None? <==> a.stormData.None?)
      && (st.Some? ==> a.stormData.value.time == st.value.time && a.stormData.value.windSpeed == st.value.speed)
      && (st.Some? ==> a.level == LegacySeverity(st.value.speed) && a.message == LegacyMessage(st.value, fmt))
  {
    var p := StormTest(now, threshold);
    var q := LegacyStormTest(now, Number(threshold));
    assert forall i :: 0 <= i < |list| ==> p(list[i]) == q(list[i]);
    FirstIndexFromAgrees(list, p, list, q, 0);
    match FirstIndex(list, p)
    case None =>
    case Some(i) =>
      var e := StormOf(list[i]);
      assert WarningMessage(e, fmt) == WarningLead(e.windSpeed) + "" + WarningWhen(fmt.date(e.time), fmt.time(e.time));
      assert WarningLead(e.windSpeed) + "" == WarningLead(e.windSpeed);
  }

  class App {
    var alertLevel: LegacyAlert
    var notificationThreshold: Threshold
    var pushEnabled: bool
    var phoneNumber: string
    var isSubscribed: bool
    var lastNotifiedStormTime: Option<string>

    constructor()
      ensures alertLevel == LegacyAlert(Unset, "", false) && notificationThreshold == Number(DefaultThreshold)
      ensures !pushEnabled && phoneNumber == "" && !isSubscribed && lastNotifiedStormTime == None
    {
      alertLevel := LegacyAlert(Unset, "", false);
      notificationThreshold := Number(DefaultThreshold);
      pushEnabled := false;
      phoneNumber := "";
      isSubscribed := false;
      lastNotifiedStormTime := None;
    }

    /** The messages a notification sends: a browser notification when push is on, an SMS request
        when subscribed with a number. */
    function Dispatch(message: string): (out: seq<Outgoing>)
      reads this
      ensures BrowserNotification(StormTitle, message, Some(StormIcon)) in out <==> pushEnabled
      ensures TwilioRequest(phoneNumber, message) in out <==> isSubscribed && phoneNumber != ""
      ensures |out| == (if pushEnabled then 1 else 0) + (if isSubscribed && phoneNumber != "" then 1 else 0)
      ensures |out| == 2 ==> out[0].BrowserNotification? && out[1].TwilioRequest?
      ensures forall o | o in out :: if o.BrowserNotification? then o.body == message else o.message == message
    {
      (if pushEnabled then [BrowserNotification(StormTitle, message, Some(StormIcon))] else [])
      + (if isSubscribed && phoneNumber != "" then [TwilioRequest(phoneNumber, message)] else [])
    }

    /** The forecast effect. An absent or empty list changes nothing. Otherwise the first storm
        sets a red or yellow forecast alert and is sent once per storm time; no storm sets green
        and clears the de-dup cell. `now` is the clock; `pushConstructed` is whether the browser's
        Notification constructor succeeds. Its failure is not caught, so the effect stops there:
        no SMS request goes out and the storm time is not recorded. */
    method CheckForecast(weatherData: Option<ForecastData>, now: int, fmt: DateFormat, pushConstructed: bool)
      returns (notified: bool, sent: seq<Outgoing>)
      modifies this`alertLevel, this`lastNotifiedStormTime
      ensures !HasForecastList(weatherData) ==>
        alertLevel == old(alertLevel) && lastNotifiedStormTime == old(lastNotifiedStormTime) && !notified && sent == []
      ensures HasForecastList(weatherData) ==>
        var storm := FindStorm(weatherData.value.list.value, now, notificationThreshold);
        && notified == D.Notifies(old(lastNotifiedStormTime), StormTimeOf(storm))
        && alertLevel == (if storm.None? then LegacyAlert(Green, "", false)
                          else LegacyAlert(LegacySeverity(storm.value.speed), LegacyMessage(storm.value, fmt), true))
        && lastNotifiedStormTime ==
             if notified && pushEnabled && !pushConstructed then old(lastNotifiedStormTime)
             else D.Next(D.SingleFile, old(lastNotifiedStormTime), StormTimeOf(storm))
      ensures sent == if notified && !(pushEnabled && !pushConstructed) then Dispatch(alertLevel.message) else []
    {
      notified, sent := false, [];
      if !HasForecastList(weatherData) {
        return;
      }
      var list := weatherData.value.list.value;
      var eightHoursInMillis := 8 * 60 * 60 * 1000;
      var stormWarning: Option<LegacyStorm> := None;
      ghost var found: nat := 0;
      var i := 0;
      while i < |list|
        invariant 0 <= i <= |list|
        invariant stormWarning.None?
        invariant forall j :: 0 <= j < i ==> !LegacyIsStorm(list[j], now, notificationThreshold)
      {
        var forecast := list[i];
        var forecastTime := forecast.instant;
        if forecastTime > now && forecastTime <= now + eightHoursInMillis {
          var windSpeedKmh := WeatherUnits.ConvertWindSpeed(forecast.windSpeed);
          if ReachesThreshold(windSpeedKmh, notificationThreshold) {
            stormWarning := Some(LegacyStorm(forecast.dtTxt, windSpeedKmh));
            found := i;
            break;
          }
        }
        i := i + 1;
      }
      var p := LegacyStormTest(now, notificationThreshold);
      if stormWarning.Some? {
        assert p(list[found]) && forall j :: 0 <= j < found ==> !p(list[j]);
        assert FirstIndex(list, p) == Some(found);
        var storm := stormWarning.value;
        var alertMessage := WarningLead(storm.speed) + WarningWhen(fmt.date(storm.time), fmt.time(storm.time));
        assert alertMessage == LegacyMessage(storm, fmt);
        var alertType := if storm.speed >= 70 then Red else Yellow;
        alertLevel := LegacyAlert(alertType, alertMessage, true);
        if lastNotifiedStormTime != Some(storm.time) {
          notified := true;
          if pushEnabled {
            if !pushConstructed {
              return;
            }
            sent := sent + [BrowserNotification(StormTitle, alertMessage, Some(StormIcon))];
          }
          if isSubscribed && phoneNumber != "" {
            sent := sent + [TwilioRequest(phoneNumber, alertMessage)];
          }
          lastNotifiedStormTime := Some(storm.time);
        }
      } else {
        assert forall j :: 0 <= j < |list| ==> !p(list[j]);
        alertLevel := LegacyAlert(Green, "", false);
        lastNotifiedStormTime := None;
      }
    }

    /** `handleThresholdChange`: the slider's string is stored as it is. */
    method HandleThresholdChange(value: string)
      modifies this`notificationThreshold
      ensures notificationThreshold == SliderText(value)
    {
      notificationThreshold := SliderText(value);
    }

    /** `handlePhoneChange`. */
    method HandlePhoneChange(value: string)
      modifies this`phoneNumber
      ensures phoneNumber == value
    {
      phoneNumber := value;
    }

    /** The subscribe button is enabled when the number matches the looser pattern of this app. */
    predicate SubscribeButtonEnabled()
      reads this
      ensures SubscribeButtonEnabled() ==> phoneNumber != ""
      ensures PhoneFormat.IsE164(phoneNumber) ==> SubscribeButtonEnabled()
    {
      PhoneFormat.IsLooseE164(phoneNumber)
    }

    /** `handleSubscribeToggle`: flips the subscription and sends a confirmation only when it was
        off. The number is not checked here; the disabled button is the only guard. */
    method HandleSubscribeToggle() returns (sent: seq<Outgoing>)
      modifies this`isSubscribed
      ensures isSubscribed == !old(isSubscribed)
      ensures sent == if old(isSubscribed) then [] else [TwilioRequest(phoneNumber, SubscribedText)]
    {
      var wasSubscribed := isSubscribed;
      isSubscribed := !wasSubscribed;
      sent := [];
      if !wasSubscribed {
        sent := [TwilioRequest(phoneNumber, SubscribedText)];
      }
    }

    /** `handlePushToggle`: enabling waits for the browser's answer and, on a grant, turns push
        on and shows a welcome notification when the browser can construct it (`constructed`);
        a failing constructor leaves push on without the welcome. Disabling always succeeds. */
    method HandlePushToggle(granted: bool, constructed: bool) returns (sent: seq<Outgoing>)
      modifies this`pushEnabled
      ensures pushEnabled == (!old(pushEnabled) && granted)
      ensures sent == if !old(pushEnabled) && granted && constructed then [BrowserNotification(EnabledTitle, EnabledBody, None)] else []
    {
      sent := [];
      if !pushEnabled {
        if granted {
          pushEnabled := true;
          if constructed {
            sent := [BrowserNotification(EnabledTitle, EnabledBody, None)];
          }
        }
      } else {
        pushEnabled := false;
      }
    }
  }
}
