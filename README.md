# Wind alert app — a Dafny model of its alert engine and gates

The wind alert app watches the forecast for Bucharest. It warns when a sample in the next
eight hours reaches a wind threshold set by the user, by browser push notification and by SMS
through a Twilio-backed server. This project models, in Dafny, the deterministic core of that
app:

- the forecast evaluator and its one-field de-duplication state (`Alerts`, with the class
  `AlertService`);
- the unit and compass helpers (`WeatherUnits`);
- the alert effect of the current app (`WindApp`);
- the single-file app that came before it, with its own wind-only evaluator (`LegacyApp`);
- the phone patterns (`PhoneFormat`) and the send-SMS input validator (`SmsValidation`);
- the browser notification service (`NotificationService`) and the notifications hook with its
  four state cells (`UseNotifications`);
- the Twilio wrapper's credential guard and error table (`TwilioService`).

`Dedup` replays a run of evaluations through each app's de-dup rule. `Common` holds
Option/Result and the first-match scan that both evaluators share. `Text` holds integer
rendering, `parseInt` on numerals, UTF-16 length and prefix/suffix facts. `Config` holds the
constants.

How things outside the program are represented:

- Speeds are exact reals. JavaScript's `Math.round` is `floor(x + 1/2)`, and the `%` of
  `getWindDirection` truncates toward zero.
- Timestamps are integers in milliseconds. A sample carries its parsed instant and its `dt_txt`
  key. The localised date and time strings come from a `DateFormat` pair of functions.
- Every outcome of the browser, `fetch` or Twilio is a method parameter: the permission answer,
  whether a notification could be constructed, the HTTP outcome, the health check result, Twilio's
  replies and whether the Twilio library's factory accepts the credentials.
- Messages that leave the app are returned values: push notifications, SMS attempts and the
  single-file app's outgoing requests.

## Model

| member | source | states |
|---|---|---|
| WeatherUnits.Round | frontend/src/services/weatherService.js:57 | `Math.round` gives the integer within half of its argument, halves rounded up |
| WeatherUnits.ConvertWindSpeed | frontend/src/services/weatherService.js:56-58 | the km/h value is `speed·3.6` rounded, within half a unit of it |
| WeatherUnits.JsRem8 | frontend/src/services/weatherService.js:63 | `a % 8` keeps the sign of `a`, lies strictly between -8 and 8 and differs from `a` by a multiple of 8 |
| WeatherUnits.GetWindDirection | frontend/src/services/weatherService.js:61-65 | a label exists exactly when the rounded sector index is non-negative or a multiple of 8, and it is one of the eight compass labels |
| WeatherUnits.ConvertWindSpeedMonotone | frontend/src/services/weatherService.js:57 | a faster wind never converts to fewer km/h |
| WeatherUnits.ConvertWindSpeedExamples | frontend/src/services/weatherService.js:56-58 | 0→0, 20→72, 22→79, 19.44→70, 25→90 km/h |
| WeatherUnits.RoundShift | frontend/src/services/weatherService.js:63 | rounding commutes with adding an integer |
| WeatherUnits.DirectionOfNonNegative | frontend/src/services/weatherService.js:62-64 | for degrees ≥ 0 the label is `directions[round(deg/45) mod 8]` |
| WeatherUnits.DirectionWrapsToNorth | frontend/src/services/weatherService.js:62-64 | angles from 337.5 up to 382.5 round into the ninth sector and read "N" |
| WeatherUnits.DirectionFullTurn | frontend/src/services/weatherService.js:63 | for degrees ≥ 0, adding 360 does not change the label |
| WeatherUnits.DirectionExamples | frontend/src/services/weatherService.js:61-65 | 0 and 359 are N, 90 is E, 180 is S, 22.5 is NE, and -45 has no label |
| Alerts.GustKmh | frontend/src/services/alertService.js:30-31 | a missing gust, or a gust of 0, falls back to the wind speed; otherwise the gust is converted |
| Alerts.MaxSpeed | frontend/src/services/alertService.js:57 | the larger of wind and gust |
| Alerts.SeverityOf | frontend/src/services/alertService.js:57-59 | red exactly when wind or gust reaches 70 km/h, yellow otherwise |
| Alerts.Analyze | frontend/src/services/alertService.js:10-82 | no list or an empty one gives level none, no forecast and no storm; a storm exists exactly when `isForecast`; its level is its severity and its message is the warning text; a list without a storm gives green, no forecast, no storm |
| Alerts.AnalyzeReportsAStormOfTheList | frontend/src/services/alertService.js:25-45 | a reported storm comes from a sample of the list that lies in the window and reaches the threshold |
| Alerts.AnalyzeFindsFirstStorm | frontend/src/services/alertService.js:25-59 | the first qualifying in-window sample, in list order, is the storm, whatever comes after it; its level is red exactly when wind or gust reaches 70 |
| Alerts.AnalyzeGreenWithoutStorm | frontend/src/services/alertService.js:47-54 | a non-empty list without a qualifying in-window sample gives green, no forecast, no storm |
| Alerts.AnalyzeIgnoresSamplesOutsideWindow | frontend/src/services/alertService.js:20-28 | lists that agree inside the window `(now, now+8h]` are analysed alike, whatever lies outside it |
| Alerts.WarningMessageShape | frontend/src/services/alertService.js:68-74 | the analysis message opens with the wind-speed sentence and closes with the storm's date and hour |
| Alerts.WarningMentionsGustIffFaster | frontend/src/services/alertService.js:70-72 | the gust clause follows the wind speed in the analysis message exactly when the gust is faster |
| Alerts.GenerateNotificationMessage | frontend/src/services/alertService.js:98-125 | without storm data the notification text is the analysis message |
| Alerts.NotificationMentionsGustIffFaster | frontend/src/services/alertService.js:108-116 | a "Rafale" line follows the speed line exactly when the gust is faster than the wind |
| Alerts.NotificationClosingMatchesLevel | frontend/src/services/alertService.js:118-122 | the text ends with the danger line exactly when the level is red, and with the caution line exactly when it is not |
| Alerts.ScenarioRedStorm | frontend/src/services/alertService.js:25-59 | wind 20 m/s gusting 22 m/s two hours ahead is a red 72 km/h storm gusting 79 km/h |
| Alerts.ScenarioOutsideWindow | frontend/src/services/alertService.js:28 | a 90 km/h sample ten hours ahead is ignored and the result is green |
| Alerts.ScenarioFirstMatchNotStrongest | frontend/src/services/alertService.js:34-59 | an earlier 36 km/h sample beats a later 108 km/h one, and is yellow under threshold 30 |
| Alerts.AlertService.constructor | frontend/src/services/alertService.js:5-7 | a new service has notified no storm |
| Alerts.AlertService.AnalyzeWeatherForecast | frontend/src/services/alertService.js:10-82 | the loop with `break` returns exactly `Analyze` of its inputs and changes no field |
| Alerts.AlertService.ShouldNotify | frontend/src/services/alertService.js:85-95 | true exactly for a storm whose time is not the last notified one, which then becomes the last notified one; otherwise false and nothing changes |
| Alerts.AlertService.ResetNotificationState | frontend/src/services/alertService.js:128-130 | the last notified time is cleared |
| Alerts.DedupScenario | frontend/src/services/alertService.js:85-130 | the same storm gives true, then false, then true again after a reset; no storm gives false |
| Dedup.Notifies | frontend/App.js:256 | an evaluation never notifies the storm time already notified, nor a result without a storm |
| Dedup.Next | frontend/src/App.js:52 | one evaluation's effect on the de-dup state: a storm's time is kept; no storm keeps the state in the current app and clears it in the single-file app |
| Dedup.Replay | frontend/App.js:256-268 | the state after a run is the starting state or one of the run's results, and it is the last result when that result is a storm |
| Dedup.LatestStorm | frontend/src/App.js:45-69 | the most recent storm time of a run is the starting state or a storm time of the run, and the starting state when the run found no storm |
| Dedup.Decisions | frontend/App.js:256-268 | one decision per evaluation of a run |
| Dedup.DecisionAt | frontend/App.js:256-263 | the j-th decision is the notify rule applied to the state after the first j evaluations |
| Dedup.ReplaySnoc | frontend/App.js:256-268 | replaying one more evaluation takes one more step |
| Dedup.CurrentReplayIsLatestStorm | frontend/src/App.js:45-69 | the current app's state after a run is the most recent storm time found, since it never resets |
| Dedup.SingleFileReplayIsPrevious | frontend/App.js:248-268 | the single-file app's state after a run is what its last evaluation found |
| Dedup.CurrentDecisionAt | frontend/src/App.js:52 | an evaluation notifies exactly when its storm time differs from the most recent storm time before it |
| Dedup.SingleFileDecisionAt | frontend/App.js:256-268 | after the first evaluation, one notifies exactly when it found a storm with a time different from what the previous evaluation found |
| Dedup.LatestSkipsGreens | frontend/src/App.js:52 | storm-free evaluations do not move the most recent storm time |
| Dedup.CurrentNeverRenotifiesAcrossGreens | frontend/src/App.js:45-69 | a notified storm time is not notified again, even with storm-free evaluations in between |
| Dedup.SingleFileRenotifiesAfterGreen | frontend/App.js:265-268 | storm, no storm, the same storm: the third evaluation notifies again |
| WindApp.PushTitle | frontend/src/App.js:57-59 | the danger title exactly for a red level |
| WindApp.App.constructor | frontend/src/App.js:37-42 | threshold 50 and alert level none, empty, not a forecast |
| WindApp.App.RunAlertEffect | frontend/src/App.js:45-69 | no data changes nothing and sends nothing; otherwise the shown alert is the analysis, the service is told exactly about a found storm, the de-dup state takes one `Dedup.Next` step, push goes out exactly when notified, enabled, granted and constructed, with the level's title, and the SMS goes out exactly when notified, subscribed and with a number; both carry the notification text |
| WindApp.App.HandleThresholdChange | frontend/src/App.js:72-74 | the threshold becomes the integer the slider's numeral denotes |
| LegacyApp.ThresholdNumber | frontend/App.js:238 | a numeric threshold compares as itself, a digit string as its value, the empty string as 0 |
| LegacyApp.FindStorm | frontend/App.js:232-246 | no storm exactly when no sample lies in the window with its wind reaching the threshold; otherwise the storm is the first such sample's time and wind speed |
| LegacyApp.LegacyMessage | frontend/App.js:250 | the single-file app's warning is the current app's warning for a storm whose gust equals its wind, so it has no gust clause |
| LegacyApp.LegacySeverity | frontend/App.js:252 | red exactly from 70 km/h, yellow otherwise |
| LegacyApp.LegacyIgnoresGust | frontend/App.js:236-238 | lists that differ only in gusts give the same storm |
| LegacyApp.SliderTextComparesAsNumber | frontend/App.js:238-272 | storing the slider's string instead of a number selects the same storm |
| LegacyApp.NonNumericThresholdNeverAlerts | frontend/App.js:238 | a threshold that converts to NaN never selects a storm |
| LegacyApp.LegacyAgreesWithCurrentWithoutStrongerGusts | frontend/App.js:232-254 | where no gust is stronger than the wind, both evaluators find a storm together, with the same time, speed, level and text |
| LegacyApp.App.constructor | frontend/App.js:147-152 | level none, threshold 50, push off, no phone, not subscribed, nothing notified |
| LegacyApp.App.Dispatch | frontend/App.js:256-262 | the push notification, with the storm title and icon, is among the outgoing messages exactly when push is enabled; the SMS request to the phone exactly when subscribed with a number; push comes first, and each carries the alert text |
| LegacyApp.App.CheckForecast | frontend/App.js:225-269 | an absent or empty list changes nothing; otherwise the storm sets red or yellow with the warning text, and no storm sets green and clears the de-dup cell; a notification sends the push (when enabled) and the SMS request (when subscribed with a number), and the de-dup state takes one `Dedup.Next` step; when push is enabled and the browser's Notification constructor throws, the throw is not caught, so the SMS request is not sent and the storm time is not recorded |
| LegacyApp.App.HandleThresholdChange | frontend/App.js:271-273 | the slider's string is stored as it is |
| LegacyApp.App.HandlePhoneChange | frontend/App.js:275-277 | the phone becomes the typed value |
| LegacyApp.App.HandleSubscribeToggle | frontend/App.js:279-286 | the subscription flips, and a confirmation goes out exactly when it was off |
| LegacyApp.App.SubscribeButtonEnabled | frontend/App.js:130 | the subscribe button is never enabled for an empty number, and it is enabled for every number the validators accept |
| LegacyApp.App.HandlePushToggle | frontend/App.js:288-299 | enabling turns push on exactly on a grant, and the welcome notification goes out only when it can also be constructed; disabling always turns it off |
| PhoneFormat.IsE164 | backend/middleware/security.js:39 | a number matching `^\+[1-9]\d{6,14}$` has 8 to 16 characters, a '+' and then only digits |
| PhoneFormat.IsLooseE164 | frontend/App.js:130 | a number matching `^\+[1-9]\d{1,14}$` has 3 to 16 characters, a '+' and then only digits |
| PhoneFormat.E164OfRendered | backend/middleware/security.js:39 | every number from 10^6 up to 10^15 − 1, written after a '+', is accepted |
| PhoneFormat.E164IsRendered | backend/middleware/security.js:39 | every accepted number is a '+' followed by the rendering of a number from 10^6 up to 10^15 − 1 |
| PhoneFormat.StrictImpliesLoose | frontend/App.js:130 | every number the validators accept enables the single-file app's subscribe button |
| PhoneFormat.PhoneExamples | frontend/App.js:130 | "+40712345678" is valid; a missing '+', a leading 0, a blank or too many digits are not; "+4012" enables the button but is not valid |
| SmsValidation.SmsRequestBody.constructor | backend/middleware/security.js:28 | the body holds the given fields |
| SmsValidation.CheckSmsInput | backend/middleware/security.js:31-53 | accepted exactly when both fields are present, the phone matches and the message has at most 1600 UTF-16 units; otherwise the first failing check, in the order presence, phone, length, gives its 400 answer |
| SmsValidation.StripAngles | backend/middleware/security.js:56 | the result is no longer than the input and contains no '<' or '>' |
| SmsValidation.StripAnglesOfConcat | backend/middleware/security.js:56 | removal works piece by piece, so the other characters keep their order |
| SmsValidation.StripAnglesKeepsOthers | backend/middleware/security.js:56 | every other character occurs as often after removal as before |
| SmsValidation.StripAnglesFixesClean | backend/middleware/security.js:56 | a message without angle brackets is unchanged |
| SmsValidation.StripAnglesIdempotent | backend/middleware/security.js:56 | sanitising twice is sanitising once |
| SmsValidation.ValidateSmsInput | backend/middleware/security.js:27-59 | `next` is called exactly when no check fails; the answer is the first failing check's; on success only the message changes, to its sanitised form; checks use the message as received |
| NotificationService.MergeOptions | frontend/src/services/notificationService.js:39-45 | every key of either object, the caller's value winning |
| NotificationService.ValidatePhoneNumber | frontend/src/services/notificationService.js:95-99 | an accepted number has 8 to 16 characters and starts with '+' |
| NotificationService.SendSmsNotification | frontend/src/services/notificationService.js:55-92 | no request for an empty phone or message or a malformed phone, with the matching error; success exactly for an ok response reporting success, returning its body; a non-ok response fails with "HTTP error! status: " and its status; a network failure fails with its own text; a backend error is passed on, and an empty or absent one becomes the generic text |
| NotificationService.NotificationService.constructor | frontend/src/services/notificationService.js:4-14 | the permission is the browser's when it has notifications, none otherwise |
| NotificationService.NotificationService.CheckPushPermission | frontend/src/services/notificationService.js:10-14 | the browser's permission is copied when it has notifications |
| NotificationService.NotificationService.RequestPushPermission | frontend/src/services/notificationService.js:17-30 | fails without browser support; otherwise records the answer, whatever it is, and succeeds only on a grant |
| NotificationService.NotificationService.SendPushNotification | frontend/src/services/notificationService.js:33-52 | nothing without a granted permission; otherwise the notification, with the default options overridden by the caller's, when it can be constructed |
| UseNotifications.NotificationsHook.constructor | frontend/src/hooks/useNotifications.js:5-8 | push off, no phone, not subscribed, backend assumed connected |
| UseNotifications.NotificationsHook.TogglePushNotifications | frontend/src/hooks/useNotifications.js:11-28 | disabling always turns push off; enabling turns it on exactly on a grant, sending the welcome notification, and shows an alert otherwise |
| UseNotifications.NotificationsHook.SendPushNotification | frontend/src/hooks/useNotifications.js:31-35 | a push goes out only while push is enabled, with `{ body: message }` over the defaults |
| UseNotifications.NotificationsHook.UpdatePhoneNumber | frontend/src/hooks/useNotifications.js:38-44 | the phone is stored, and the subscription survives only an unchanged number |
| UseNotifications.NotificationsHook.ToggleSmsSubscription | frontend/src/hooks/useNotifications.js:47-81 | an empty or invalid phone changes no state; unsubscribing is local; subscribing records reachability, and succeeds exactly when the backend is reachable and the confirmation SMS succeeds, any failure leaving it unsubscribed with an alert |
| UseNotifications.NotificationsHook.SendSmsNotification | frontend/src/hooks/useNotifications.js:84-93 | an SMS is attempted exactly when subscribed with a number; no state changes, whatever the outcome |
| TwilioService.UserMessage | backend/services/twilioService.js:37-49 | the message shown for a Twilio error is never empty |
| TwilioService.UserMessageMatchesTables | backend/services/twilioService.js:37-49 | the if/else chain equals a lookup of the code table first, the status table second, and the generic text otherwise |
| TwilioService.CodeTakesPriority | backend/services/twilioService.js:39-48 | a known code decides whatever the status; code 21211 with status 401 is the invalid-number message |
| TwilioService.TwilioService.constructor | backend/services/twilioService.js:4-15 | the service keeps the three credentials |
| TwilioService.TwilioService.SendSms | backend/services/twilioService.js:18-53 | the request carries the configured sender; it succeeds exactly when Twilio accepts, always with `success: true`, the sid and the status; otherwise it fails with the mapped message |
| TwilioService.TwilioService.ValidatePhoneNumber | backend/services/twilioService.js:87-109 | a lookup is a valid number, a 404 is a well-formed "not valid" answer, and every other error fails with the generic text |
| TwilioService.CreateTwilioService | backend/services/twilioService.js:4-15 | a service exists exactly when all three credentials are set and non-empty and the Twilio factory accepts them; a missing credential fails with the incomplete-environment message, checked before the factory is called; an error thrown by the factory is passed on |
| Text.NatToString | frontend/src/services/alertService.js:68-71 | a number renders as at least one digit, with no leading zero |
| Text.IntToString | frontend/src/services/alertService.js:68-71 | a non-negative integer renders as digits denoting it; a negative one as '-' followed by digits denoting its magnitude |
| Text.NatToStringBounds | frontend/src/services/alertService.js:68-71 | a rendering of k digits denotes a number below 10^k, and at least 10^(k-1) when k > 1 |
| Text.NatToStringOfDigitsValue | backend/middleware/security.js:39 | rendering the value of digits without a leading zero gives those digits back |
| Text.ParseInt | frontend/src/App.js:73 | no value exactly when the string is empty or does not start with a digit |
| Text.DigitsValueOfNatToString | frontend/src/App.js:73 | the digits of a rendered number denote that number |
| Text.ParseIntOfNatToString | frontend/src/App.js:73 | `parseInt` reads a rendered number back |
| Text.Utf16Length | backend/middleware/security.js:48 | `length` counts between one and two units per character |
| Common.FirstIndex | frontend/src/services/alertService.js:25-45 | the index of the first match, with no match before it, or none when nothing matches |
| Common.FirstIndexFromAgrees | frontend/src/services/alertService.js:25-45 | scans that agree position by position find the same first match |

## Left out

- Rendering: JSX, UI components and their colour bands. `YELLOW` (50) in the constants drives only styling and is not used by the evaluators.
- Fetching and timing: polling with `setInterval`, the weather fetch methods and mock data generators (random), and React's effect dependencies and stale closures. Each effect run or callback is one transition.
- Foreign calls become parameters: `fetch`, `Notification.requestPermission`, the Twilio client's replies, the Twilio factory's outcome (an optional error message) and `testBackendConnection` (a `reachable` flag). Whether `new Notification` succeeds is a flag too. The notification service catches its failure; in the single-file app it is not caught.
- What happens after an uncaught throw in the single-file app (React's error reporting, a rejected permission promise) is not modelled: the effect or callback just stops at that point.
- Logging (`console.*`) and the `alert` dialog; the dialog's text is returned instead.
- Dates: parsing `dt_txt` and the `ro-RO` date and time formatting are opaque (a parsed instant and a `DateFormat` parameter).
- Floating point: speeds are exact reals, so IEEE rounding at halves and representation error are not modelled.
- Inputs of the wrong JavaScript type: a non-string body field, a missing `wind.deg`, an undefined `weather` entry. An empty `weather` array gives no weather entry.
- `getMessageStatus` and `getAccountBalance` of the Twilio wrapper: plain pass-throughs of the client, with no decision in them.
- The Express server, its routes, CORS, helmet and rate limiting: plumbing and library behaviour.
- The single-file app's `sendTwilioNotification` callback: it only logs the backend's answer, so the model stops at the outgoing request.
- WindApp.App.HandleThresholdChange: requires a value that starts with a digit, as the range slider produces; `parseInt` giving NaN is not modelled.
- LegacyApp.ThresholdNumber: converts only digit strings and the empty string; other strings (signs, decimals, blanks, hex) are treated as NaN.
- Text.ParseInt: reads decimal digits only, without leading blanks, sign or radix prefix.
- Alerts.GenerateNotificationMessage: its contract covers the no-storm case; the storm text is described by the lemmas NotificationMentionsGustIffFaster and NotificationClosingMatchesLevel.
- Reset in the current app: the current app never calls `resetNotificationState`, so its de-dup state is never cleared (`Dedup.CurrentNeverRenotifiesAcrossGreens`). The single-file app clears it on a storm-free result. The model follows the code of each app.
