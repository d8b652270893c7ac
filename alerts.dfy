/** The forecast alert evaluator of the alert service: which forecast sample is the storm,
    how severe it is, the texts it produces, and the notification de-duplication state. */
module Alerts {
  import opened Common
  import opened Text
  import opened Config
  import WeatherUnits

  /** One entry of the forecast list. `instant` is `new Date(dtTxt).getTime()` in milliseconds;
      `weather` stands for the entry's `weather` array, each element kept opaque. */
  datatype ForecastSample = ForecastSample(
    dtTxt: string,
    instant: int,
    windSpeed: real,
    gust: Option<real>,
    deg: real,
    weather: seq<string>)

  /** The forecast payload; `list` is None when the payload carries no list. */
  datatype ForecastData = ForecastData(list: Option<seq<ForecastSample>>)

  /** The storm a forecast announces: its `dt_txt`, speeds in km/h, direction and first weather entry. */
  datatype StormEvent = StormEvent(
    time: string,
    windSpeed: int,
    gustSpeed: int,
    direction: real,
    weather: Option<string>)

  datatype Analysis = Analysis(
    level: AlertLevel,
    message: string,
    isForecast: bool,
    stormData: Option<StormEvent>)

  /** The locale formatting of a storm's `dt_txt` (`toLocaleDateString` and `toLocaleTimeString`
      with the 'ro-RO' locale), taken as given. */
  datatype DateFormat = DateFormat(date: string -> string, time: string -> string)

  predicate InWindow(s: ForecastSample, now: int) {
    now < s.instant <= now + ForecastWindowMs
  }

  function WindKmh(s: ForecastSample): int {
    WeatherUnits.ConvertWindSpeed(s.windSpeed)
  }

  /** The gust in km/h; a missing gust, or a gust of 0 (which JavaScript treats as false), falls
      back to the wind speed. */
  function GustKmh(s: ForecastSample): (g: int)
    ensures s.gust.None? || s.gust.value == 0.0 ==> g == WindKmh(s)
    ensures s.gust.Some? && s.gust.value != 0.0 ==> g == WeatherUnits.ConvertWindSpeed(s.gust.value)
  {
    if s.gust.Some? && s.gust.value != 0.0 then WeatherUnits.ConvertWindSpeed(s.gust.value) else WindKmh(s)
  }

  predicate IsStorm(s: ForecastSample, now: int, threshold: int) {
    InWindow(s, now) && (WindKmh(s) >= threshold || GustKmh(s) >= threshold)
  }

  function StormTest(now: int, threshold: int): ForecastSample -> bool {
    s => IsStorm(s, now, threshold)
  }

  function StormOf(s: ForecastSample): StormEvent {
    StormEvent(s.dtTxt, WindKmh(s), GustKmh(s), s.deg, if |s.weather| > 0 then Some(s.weather[0]) else None)
  }

  function MaxSpeed(e: StormEvent): (m: int)
    ensures m >= e.windSpeed && m >= e.gustSpeed && (m == e.windSpeed || m == e.gustSpeed)
  {
    if e.windSpeed >= e.gustSpeed then e.windSpeed else e.gustSpeed
  }

  /** A storm is red when its faster speed reaches RedThreshold, and yellow otherwise. */
  function SeverityOf(e: StormEvent): (level: AlertLevel)
    ensures level == Red <==> e.windSpeed >= RedThreshold || e.gustSpeed >= RedThreshold
    ensures level != Red ==> level == Yellow
  {
    if MaxSpeed(e) >= RedThreshold then Red else Yellow
  }

  const NoStormMessage: string := "Nu se prognozează vânt puternic în următoarele 8 ore."

  function WarningLead(speed: int): string {
    "AVERTISMENT: Se prognozează vânt cu viteza de " + IntToString(speed) + " km/h"
  }

  const GustClauseStart: string := " (rafale până la "

  function GustClause(gust: int): string {
    GustClauseStart + IntToString(gust) + " km/h)"
  }

  function WarningWhen(date: string, time: string): string {
    " pe data de " + date + " în jurul orei " + time + "."
  }

  /** The analysis message of a storm. */
  function WarningMessage(e: StormEvent, fmt: DateFormat): string {
    WarningLead(e.windSpeed)
    + (if e.gustSpeed > e.windSpeed then GustClause(e.gustSpeed) else "")
    + WarningWhen(fmt.date(e.time), fmt.time(e.time))
  }

  predicate HasForecastList(data: Option<ForecastData>) {
    data.Some? && data.value.list.Some? && |data.value.list.value| > 0
  }

  /** What `analyzeWeatherForecast` returns for a payload, a threshold (km/h) and the current time (ms). */
  function Analyze(data: Option<ForecastData>, threshold: int, now: int, fmt: DateFormat): (r: Analysis)
    ensures !HasForecastList(data) ==> r == Analysis(Unset, "", false, None)
    ensures r.isForecast <==> r.stormData.Some?
    ensures r.stormData.Some? ==> r.level == SeverityOf(r.stormData.value)
    ensures r.stormData.Some? ==> r.message == WarningMessage(r.stormData.value, fmt)
    ensures HasForecastList(data) && r.stormData.None? ==> r == Analysis(Green, NoStormMessage, false, None)
  {
    if !HasForecastList(data) then Analysis(Unset, "", false, None)
    else
      var list := data.value.list.value;
      match FirstIndex(list, StormTest(now, threshold))
      case None => Analysis(Green, NoStormMessage, false, None)
      case Some(i) =>
        var e := StormOf(list[i]);
        Analysis(SeverityOf(e), WarningMessage(e, fmt), true, Some(e))
  }

  /** A storm that the analysis reports is an in-window, qualifying sample of the list. */
  lemma AnalyzeReportsAStormOfTheList(list: seq<ForecastSample>, threshold: int, now: int, fmt: DateFormat)
    requires Analyze(Some(ForecastData(Some(list))), threshold, now, fmt).stormData.Some?
    ensures exists i :: (0 <= i < |list| && IsStorm(list[i], now, threshold) &&
      Analyze(Some(ForecastData(Some(list))), threshold, now, fmt).stormData == Some(StormOf(list[i])))
  {
    var i := FirstIndex(list, StormTest(now, threshold)).value;
    assert StormTest(now, threshold)(list[i]);
  }

  /** The first in-window qualifying sample, in list order, is the storm, whatever follows it,
      and its level is red exactly when its wind or gust reaches RedThreshold. */
  lemma AnalyzeFindsFirstStorm(list: seq<ForecastSample>, threshold: int, now: int, fmt: DateFormat, i: nat)
    requires i < |list| && IsStorm(list[i], now, threshold)
    requires forall j :: 0 <= j < i ==> !IsStorm(list[j], now, threshold)
    ensures var r := Analyze(Some(ForecastData(Some(list))), threshold, now, fmt);
      && r.stormData == Some(StormOf(list[i]))
      && r.isForecast
      && (r.level == Red <==> WindKmh(list[i]) >= RedThreshold || GustKmh(list[i]) >= RedThreshold)
      && (r.level != Red ==> r.level == Yellow)
  {
  }

  /** With no in-window qualifying sample in a non-empty list the level is green. */
  lemma AnalyzeGreenWithoutStorm(list: seq<ForecastSample>, threshold: int, now: int, fmt: DateFormat)
    requires |list| > 0
    requires forall j :: 0 <= j < |list| ==> !IsStorm(list[j], now, threshold)
    ensures Analyze(Some(ForecastData(Some(list))), threshold, now, fmt) == Analysis(Green, NoStormMessage, false, None)
  {
  }

  /** Samples outside the window are ignored whatever they contain: two lists that agree on
      which positions are in the window, and on the samples there, are analysed alike. */
  lemma AnalyzeIgnoresSamplesOutsideWindow(a: seq<ForecastSample>, b: seq<ForecastSample>, threshold: int, now: int, fmt: DateFormat)
    requires |a| == |b|
    requires forall i :: 0 <= i < |a| ==> InWindow(a[i], now) == InWindow(b[i], now)
    requires forall i :: 0 <= i < |a| && InWindow(a[i], now) ==> a[i] == b[i]
    ensures Analyze(Some(ForecastData(Some(a))), threshold, now, fmt) == Analyze(Some(ForecastData(Some(b))), threshold, now, fmt)
  {
    var p := StormTest(now, threshold);
    forall i | 0 <= i < |a|
      ensures p(a[i]) == p(b[i])
    {
      if InWindow(a[i], now) {
        assert a[i] == b[i];
      }
    }
    FirstIndexFromAgrees(a, p, b, p, 0);
  }

  /** The warning opens with the wind speed and closes with the date and hour of the storm. */
  lemma WarningMessageShape(e: StormEvent, fmt: DateFormat)
    ensures WarningLead(e.windSpeed) <= WarningMessage(e, fmt)
    ensures EndsWith(WarningMessage(e, fmt), WarningWhen(fmt.date(e.time), fmt.time(e.time)))
  {
  }

  /** The gust clause follows the wind speed in the analysis message exactly when the gust is
      faster than the wind. */
  lemma WarningMentionsGustIffFaster(e: StormEvent, fmt: DateFormat)
    ensures WarningLead(e.windSpeed) + GustClauseStart <= WarningMessage(e, fmt) <==> e.gustSpeed > e.windSpeed
  {
    var lead := WarningLead(e.windSpeed);
    var when := WarningWhen(fmt.date(e.time), fmt.time(e.time));
    if e.gustSpeed > e.windSpeed {
      var tail := IntToString(e.gustSpeed) + " km/h)" + when;
      assert GustClause(e.gustSpeed) + when == GustClauseStart + tail;
      PrefixOfConcat(lead, GustClauseStart, tail);
    } else {
      assert when[1] == 'p' && GustClauseStart[1] == '(';
      PrefixDiffers(lead, GustClauseStart, when, 1);
    }
  }

  // The notification text (`generateNotificationMessage`).

  const NotificationHeader: string := "🌪️ ALERTĂ VÂNT PUTERNIC\n\n"
  const DangerClosing: string := "⚠️ PERICOL MAJOR - Rămâneți în interior!"
  const CautionClosing: string := "⚠️ ATENȚIE SPORITĂ - Luați măsuri de precauție!"
  const GustLineStart: string := "Rafale: "

  function SpeedLine(speed: int): string {
    NotificationHeader + "Viteză: " + IntToString(speed) + " km/h\n"
  }

  /** The direction as the template literal prints it: an absent label prints as "undefined". */
  function DirectionText(degrees: real): string {
    match WeatherUnits.GetWindDirection(degrees)
    case Some(d) => d
    case None => "undefined"
  }

  function GustLine(e: StormEvent): string {
    if e.gustSpeed > e.windSpeed then GustLineStart + IntToString(e.gustSpeed) + " km/h\n" else ""
  }

  function TimeAndDirection(e: StormEvent, fmt: DateFormat): string {
    "Ora: " + fmt.time(e.time) + "\n" + "Direcție: " + DirectionText(e.direction) + "\n\n"
  }

  function Closing(level: AlertLevel): string {
    if level == Red then DangerClosing else CautionClosing
  }

  /** `generateNotificationMessage`: without a storm the analysis message itself; with one, the
      alert text and the closing line for its level. */
  function GenerateNotificationMessage(alert: Analysis, fmt: DateFormat): (m: string)
    ensures alert.stormData.None? ==> m == alert.message
  {
    if alert.stormData.None? then alert.message
    else
      var e := alert.stormData.value;
      SpeedLine(e.windSpeed) + (GustLine(e) + (TimeAndDirection(e, fmt) + Closing(alert.level)))
  }

  /** A "Rafale" line follows the speed line exactly when the gust is faster than the wind. */
  lemma NotificationMentionsGustIffFaster(alert: Analysis, fmt: DateFormat)
    requires alert.stormData.Some?
    ensures var e := alert.stormData.value;
      SpeedLine(e.windSpeed) + GustLineStart <= GenerateNotificationMessage(alert, fmt) <==> e.gustSpeed > e.windSpeed
  {
    var e := alert.stormData.value;
    var head := SpeedLine(e.windSpeed);
    var rest := TimeAndDirection(e, fmt) + Closing(alert.level);
    if e.gustSpeed > e.windSpeed {
      var tail := IntToString(e.gustSpeed) + " km/h\n" + rest;
      assert GustLine(e) + rest == GustLineStart + tail;
      PrefixOfConcat(head, GustLineStart, tail);
    } else {
      assert GustLine(e) + rest == rest;
      assert rest[0] == 'O' && GustLineStart[0] == 'R';
      PrefixDiffers(head, GustLineStart, rest, 0);
    }
  }

  /** The notification closes with the danger line exactly when the level is red, and with the
      caution line otherwise. */
  lemma NotificationClosingMatchesLevel(alert: Analysis, fmt: DateFormat)
    requires alert.stormData.Some?
    ensures EndsWith(GenerateNotificationMessage(alert, fmt), DangerClosing) <==> alert.level == Red
    ensures EndsWith(GenerateNotificationMessage(alert, fmt), CautionClosing) <==> alert.level != Red
  {
    var e := alert.stormData.value;
    var closing := Closing(alert.level);
    var m := GenerateNotificationMessage(alert, fmt);
    var r1 := TimeAndDirection(e, fmt) + closing;
    var r2 := GustLine(e) + r1;
    assert EndsWith(closing, closing);
    EndsWithOfConcat(TimeAndDirection(e, fmt), closing, closing);
    EndsWithOfConcat(GustLine(e), r1, closing);
    EndsWithOfConcat(SpeedLine(e.windSpeed), r2, closing);
    assert !EndsWith(CautionClosing, DangerClosing);
    if EndsWith(m, DangerClosing) && EndsWith(m, CautionClosing) {
      EndsWithBoth(m, CautionClosing, DangerClosing);
    }
  }

  // Scenarios of the evaluator.

  const T0: int := 1_700_000_000_000
  const HourMs: int := 60 * 60 * 1000

  /** One sample two hours ahead with wind 20 m/s and gust 22 m/s against threshold 50 is a red
      storm of 72 km/h gusting 79 km/h. */
  lemma ScenarioRedStorm(fmt: DateFormat)
    ensures var s := ForecastSample("t+2h", T0 + 2 * HourMs, 20.0, Some(22.0), 90.0, []);
      var r := Analyze(Some(ForecastData(Some([s]))), 50, T0, fmt);
      r.level == Red && r.isForecast && r.stormData.Some?
      && r.stormData.value.windSpeed == 72 && r.stormData.value.gustSpeed == 79
  {
    var s := ForecastSample("t+2h", T0 + 2 * HourMs, 20.0, Some(22.0), 90.0, []);
    WeatherUnits.ConvertWindSpeedExamples();
    AnalyzeFindsFirstStorm([s], 50, T0, fmt, 0);
  }

  /** A sample ten hours ahead lies outside the window, however strong: the level is green. */
  lemma ScenarioOutsideWindow(fmt: DateFormat)
    ensures var s := ForecastSample("t+10h", T0 + 10 * HourMs, 25.0, None, 0.0, []);
      Analyze(Some(ForecastData(Some([s]))), 50, T0, fmt) == Analysis(Green, NoStormMessage, false, None)
  {
    var s := ForecastSample("t+10h", T0 + 10 * HourMs, 25.0, None, 0.0, []);
    AnalyzeGreenWithoutStorm([s], 50, T0, fmt);
  }

  /** The earliest qualifying sample wins over a later, stronger one, and a storm below
      RedThreshold is yellow even for a low threshold. */
  lemma ScenarioFirstMatchNotStrongest(fmt: DateFormat)
    ensures var a := ForecastSample("t+1h", T0 + HourMs, 10.0, None, 0.0, []);
      var b := ForecastSample("t+3h", T0 + 3 * HourMs, 30.0, None, 0.0, []);
      var r := Analyze(Some(ForecastData(Some([a, b]))), 30, T0, fmt);
      r.stormData == Some(StormOf(a)) && r.level == Yellow
  {
    var a := ForecastSample("t+1h", T0 + HourMs, 10.0, None, 0.0, []);
    var b := ForecastSample("t+3h", T0 + 3 * HourMs, 30.0, None, 0.0, []);
    assert WindKmh(a) == 36;
    AnalyzeFindsFirstStorm([a, b], 30, T0, fmt, 0);
  }

  /** The alert service: the evaluator and the time of the last storm it has notified. */
  class AlertService {
    var lastNotifiedStormTime: Option<string>

    constructor()
      ensures lastNotifiedStormTime == None
    {
      lastNotifiedStormTime := None;
    }

    /** `analyzeWeatherForecast`: scans the list in order for the first in-window sample whose
        wind or gust reaches the threshold, then grades it and writes the warning. It changes no
        field of the service. */
    method AnalyzeWeatherForecast(forecastData: Option<ForecastData>, threshold: int, now: int, fmt: DateFormat)
      returns (r: Analysis)
      ensures r == Analyze(forecastData, threshold, now, fmt)
    {
      if !HasForecastList(forecastData) {
        return Analysis(Unset, "", false, None);
      }
      var list := forecastData.value.list.value;
      var forecastWindow := ForecastHoursAhead * 60 * 60 * 1000;
      var stormWarning: Option<StormEvent> := None;
      ghost var found: nat := 0;
      var i := 0;
      while i < |list|
        invariant 0 <= i <= |list|
        invariant stormWarning.None?
        invariant forall j :: 0 <= j < i ==> !IsStorm(list[j], now, threshold)
      {
        var forecast := list[i];
        var forecastTime := forecast.instant;
        if forecastTime > now && forecastTime <= now + forecastWindow {
          var windSpeedKmh := WeatherUnits.ConvertWindSpeed(forecast.windSpeed);
          var gustSpeedKmh := if forecast.gust.Some? && forecast.gust.value != 0.0
            then WeatherUnits.ConvertWindSpeed(forecast.gust.value) else windSpeedKmh;
          if windSpeedKmh >= threshold || gustSpeedKmh >= threshold {
            stormWarning := Some(StormEvent(forecast.dtTxt, windSpeedKmh, gustSpeedKmh, forecast.deg,
              if |forecast.weather| > 0 then Some(forecast.weather[0]) else None));
            found := i;
            break;
          }
        }
        i := i + 1;
      }
      var p := StormTest(now, threshold);
      if stormWarning.None? {
        assert forall j :: 0 <= j < |list| ==> !p(list[j]);
        return Analysis(Green, NoStormMessage, false, None);
      }
      assert p(list[found]) && forall j :: 0 <= j < found ==> !p(list[j]);
      assert FirstIndex(list, p) == Some(found);
      var storm := stormWarning.value;
      var maxSpeed := if storm.windSpeed >= storm.gustSpeed then storm.windSpeed else storm.gustSpeed;
      var alertLevel := if maxSpeed >= RedThreshold then Red else Yellow;
      var message := WarningLead(storm.windSpeed);
      if storm.gustSpeed > storm.windSpeed {
        message := message + GustClause(storm.gustSpeed);
      }
      message := message + WarningWhen(fmt.date(storm.time), fmt.time(storm.time));
      assert message == WarningMessage(storm, fmt);
      r := Analysis(alertLevel, message, true, stormWarning);
    }

    /** `shouldNotify`: true for a storm whose time differs from the last one notified, which
        then becomes the last one notified; false, with nothing changed, otherwise. */
    method ShouldNotify(stormData: Option<StormEvent>) returns (notify: bool)
      modifies this
      ensures notify <==> stormData.Some? && old(lastNotifiedStormTime) != Some(stormData.value.time)
      ensures lastNotifiedStormTime == if notify then Some(stormData.value.time) else old(lastNotifiedStormTime)
    {
      if stormData.None? {
        return false;
      }
      if lastNotifiedStormTime == Some(stormData.value.time) {
        return false;
      }
      lastNotifiedStormTime := Some(stormData.value.time);
      return true;
    }

    /** `resetNotificationState`: forget the last notified storm. */
    method ResetNotificationState()
      modifies this
      ensures lastNotifiedStormTime == None
    {
      lastNotifiedStormTime := None;
    }
  }

  /** On a fresh service the same storm is notified once, not twice, and again after a reset;
      no storm is never notified. */
  method DedupScenario(e: StormEvent) returns (first: bool, second: bool, third: bool, none: bool)
    ensures first && !second && third && !none
  {
    var service := new AlertService();
    first := service.ShouldNotify(Some(e));
    second := service.ShouldNotify(Some(e));
    service.ResetNotificationState();
    third := service.ShouldNotify(Some(e));
    none := service.ShouldNotify(None);
  }
}
