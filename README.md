# VitalTrack rule layer in Dafny

VitalTrack is a Flask health-monitoring application. It stores a user's vital-sign
readings (heart rate, systolic and diastolic blood pressure, temperature, oxygen
saturation) and turns them into range alerts, trends and predictions. It classifies the
resulting insights by severity, notifies the user and their emergency contacts,
handles an SOS, reminds the user about medication, schedules reports and summarises
alerts.

This project models the deterministic rules between the stored readings and the
notifications. It proves what each rule promises.

- The machine-learning models are parameters: the IsolationForest outlier labels and
  the RandomForest forecaster's next value.
- The clock, the database rows and the senders are parameters too.
- Readings are exact `real`s. A standard deviation is compared through its square, and
  the `np.polyfit` slope is the closed-form least-squares slope.

One module per source file:

| module | models |
|---|---|
| `VitalAnalyzer` | `VitalSignsAnalyzer` (vital_analyzer.py) |
| `PredictiveAnalytics` | `HealthPredictor` (predictive_analytics.py) |
| `NotificationSystem` | `NotificationSystem` (notification_system.py) |
| `EmergencyHandler` | `EmergencyHandler` (emergency_handler.py) |
| `MedicationReminder` | `MedicationReminder` (medication_reminder.py) |
| `VitalManager` | `VitalManager` (vital_manager.py) |
| `Scheduler` | `ReportScheduler` (scheduler.py) |
| `ReportGenerator` | the two summaries of `HealthReport` (report_generator.py) |
| `WebApp` | the alert, preference, scheduling and export routes (web_app.py) |

Shared pieces:

- `Records` holds the row shapes of models.py.
- `Store` holds the tables the core writes in place: alerts, notification logs and
  preferences.
- `Clock` is `strptime(text, "%H:%M")`.
- `Stats` holds mean, variance and slope.
- `AlertOrder` is `order_by(timestamp.desc())`.
- `Common` holds the text helpers.

Where the code and its documentation disagree, the model follows the code. Several
sharp edges of the code are stated as lemmas about the model as written:

- History is read newest first, so a trend runs against time (`TrendAgainstTime`).
- `[-5:]` takes the five oldest readings (`TailIsOldest`).
- The critical severity cannot be reached from generated insights (`InsightRunNeverCritical`).
- `notify_emergency_contacts` reads a `full_name` attribute that `User` does not
  declare (`ContactsRaise`).
- The emergency alert passes a `severity` keyword that `Alert` does not declare
  (`SeverityIsRejected`).
- 'daily' medications are never due (`DailyNeverDue`).
- Acknowledging an alert twice keeps the second time stamp (`AcknowledgeTwice`).

## Model

| member | source | states |
|---|---|---|
| VitalAnalyzer.NormalRange | vital_analyzer.py:9-15 | The fixed range table: every vital's normal range has min below max. |
| VitalAnalyzer.VitalNamed | vital_analyzer.py:73-75 | Only attribute names in the range table are checked; any other name has no range. |
| VitalAnalyzer.AttrAlert | vital_analyzer.py:73-79 | A numeric value strictly below min gives a Low alert and one strictly above max a High alert. A value on a bound, None, a non-numeric value or an unknown name gives none. |
| VitalAnalyzer.RangeAlerts | vital_analyzer.py:69-81 | The attributes give at most one alert each. |
| VitalAnalyzer.CheckVitalRanges | vital_analyzer.py:69-81 | The loop returns exactly the per-attribute alerts, in attribute order. |
| VitalAnalyzer.RangeAlertsExact | vital_analyzer.py:73-79 | Every alert comes from one attribute, and every out-of-range attribute produces its alert. |
| VitalAnalyzer.RangeAlertsOnePerVital | vital_analyzer.py:73-79 | With distinct attribute names, no vital is reported twice. |
| VitalAnalyzer.HistoryOf | vital_analyzer.py:20-22 | The history holds min(100, n) readings: the newest, newest first. |
| VitalAnalyzer.PrepareData | vital_analyzer.py:50-67 | Each column has one value per record, in record order, and the timestamps likewise. |
| VitalAnalyzer.AnalyzeTrends | vital_analyzer.py:106-123 | The loop returns exactly the trends of the five columns, in column order. |
| VitalAnalyzer.TrendReported | vital_analyzer.py:113-121 | A trend is reported iff the column has more than 10 values and the absolute slope exceeds 0.1. It is 'increasing' iff the slope is positive. |
| VitalAnalyzer.TrendAgainstTime | vital_analyzer.py:20-22 | Because the history is newest first, a vital rising over time is reported as decreasing and one falling as increasing. |
| VitalAnalyzer.Predictions | vital_analyzer.py:125-149 | Four rules: hypertension iff mean systolic > 130 or mean diastolic > 80; fever iff the mean of the last five temperatures > 37.2; low oxygen iff the mean of the last five SpO2 values < 95; irregular heart rate iff the variance of the last ten heart rates > 225. Each appears at most once, in rule order. |
| VitalAnalyzer.TailIsOldest | vital_analyzer.py:137-141 | `[-k:]` of a history column holds the k oldest readings of the window. |
| VitalAnalyzer.AnalyzeVitals | vital_analyzer.py:17-48 | The analysis is the composition of the query, the column pass, the range check, the outlier verdict, the trends and the predictions. |
| VitalAnalyzer.StatusAlertIff | vital_analyzer.py:24-43 | Status is 'alert' iff there is history and either a range alert or an anomaly. An empty history gives 'normal' with nothing reported. |
| VitalAnalyzer.OutOfRangeRaisesStatus | vital_analyzer.py:31-43 | One out-of-range vital in the current record makes the status 'alert' once history exists. |
| Stats.SlopeReverse | vital_analyzer.py:115-117 | Reading a series backwards negates its least-squares slope. |
| Stats.SlopeOfLine | vital_analyzer.py:115-117 | The slope of values lying exactly on a line is that line's gradient. |
| Stats.MeanOfConstant | predictive_analytics.py:89-90 | A constant column has that constant as its mean and zero population and sample variance. |
| PredictiveAnalytics.WindowMembers | predictive_analytics.py:61-65 | The window holds exactly the readings taken at or after now minus the look-back. |
| PredictiveAnalytics.WindowAscending | predictive_analytics.py:62-65 | The window keeps ascending time order. |
| PredictiveAnalytics.FlaggedIndices | predictive_analytics.py:79 | The flagged positions are exactly the rows labelled as outliers, ascending. |
| PredictiveAnalytics.Examined | predictive_analytics.py:83 | The last min(3, #flagged) flagged rows are examined, ascending. Each is flagged, and every flagged row left out comes before all examined ones. |
| PredictiveAnalytics.DetectAnomalies | predictive_analytics.py:58-99 | The loops return the reports of the examined rows over the window. |
| PredictiveAnalytics.VitalAnomaly | predictive_analytics.py:88-97 | A value of an examined row is reported iff it lies more than 2 sample standard deviations from its column mean; the report carries the row's timestamp, the vital, the value and the column mean. |
| PredictiveAnalytics.CheckRow | predictive_analytics.py:88-97 | The inner loop reports one row's columns in order. |
| PredictiveAnalytics.AnomalyReported | predictive_analytics.py:67-97 | A value is reported iff the window has at least 10 readings, its row is among the last three flagged, and it lies more than 2 sample standard deviations from its column mean. At most 15 values are reported. |
| PredictiveAnalytics.LastNOfAscending | predictive_analytics.py:83 | The tail `[-k:]` of an ascending list is ascending, and everything it leaves out is smaller than everything it keeps. |
| PredictiveAnalytics.VitalAnomalyBySquare | predictive_analytics.py:89-91 | With a true square root, a value is reported iff its squared deviation from the column mean exceeds four times the sample variance. |
| PredictiveAnalytics.ConstantColumnNeverReported | predictive_analytics.py:88-91 | A column that never changes is never reported. |
| PredictiveAnalytics.ReportedOutsideExpectedRange | predictive_analytics.py:91-96 | Every reported value lies outside the printed range, which is mean ± one standard deviation, not two. |
| PredictiveAnalytics.Rollout | predictive_analytics.py:139-145 | The forecast for one vital has exactly `forecast_hours` values. |
| PredictiveAnalytics.RolloutSlides | predictive_analytics.py:137-145 | The k-th prediction sees the starting feature row shifted left by k places, with the k earlier predictions appended. |
| PredictiveAnalytics.PredictVital | predictive_analytics.py:136-147 | The feedback loop returns the rollout. |
| PredictiveAnalytics.PredictTrends | predictive_analytics.py:101-149 | `predict_trends` returns the forecast of the window. |
| PredictiveAnalytics.ForecastEmptyIff | predictive_analytics.py:110-111 | The forecast is empty iff the window has fewer than 10 readings. |
| PredictiveAnalytics.ForecastEntries | predictive_analytics.py:117-147 | Past the minimum, every vital has a forecast whose values are paired with hourly timestamps after the last reading. |
| PredictiveAnalytics.ForecastAfterReadings | predictive_analytics.py:118-122 | Each vital gets exactly h points. Every point comes after every reading, and successive points are one hour apart. |
| PredictiveAnalytics.AnomalyInsights | predictive_analytics.py:162-170 | Exactly one insight per anomaly. |
| PredictiveAnalytics.InsightsFromAnomalies | predictive_analytics.py:162-170 | The first loop returns one 'warning' anomaly insight per anomaly, in order. |
| PredictiveAnalytics.TrendInsightsFrom | predictive_analytics.py:173-187 | The second loop returns the trend insights of the five vitals, in order. |
| PredictiveAnalytics.GenerateHealthInsights | predictive_analytics.py:151-189 | The anomaly insights come first, then the trend insights. Both are empty below 10 readings. |
| PredictiveAnalytics.TrendThreshold | predictive_analytics.py:177-180 | For a non-zero first value, a trend is significant iff the forecast moves by more than a tenth of its first value. It is an 'increase' iff it moves in the direction of the first value's sign. |
| PredictiveAnalytics.ZeroStartIsInfinite | predictive_analytics.py:177-185 | A forecast that starts at 0 and ends above it reports an infinite ("inf") increase. |
| PredictiveAnalytics.Direction | predictive_analytics.py:180 | The direction word is 'increase' or 'decrease'. |
| PredictiveAnalytics.TrendMessage | predictive_analytics.py:184-185 | The trend message contains no '_', because the vital name is written with spaces. |
| PredictiveAnalytics.AnomalyMessage | predictive_analytics.py:167-168 | The anomaly message contains no '_'. |
| PredictiveAnalytics.TrendInsightsAreInfo | predictive_analytics.py:179-187 | Every trend insight has type 'trend', severity 'info' and the current time. |
| PredictiveAnalytics.InsightShapes | predictive_analytics.py:162-187 | Every insight is an anomaly with severity 'warning' or a trend with severity 'info', and its message has no '_'. |
| PredictiveAnalytics.KeptInsights | predictive_analytics.py:193-194 | An insight is saved iff its severity is 'warning' or 'danger'. |
| PredictiveAnalytics.KeptAppend | predictive_analytics.py:193-194 | The saved filter distributes over concatenation. |
| PredictiveAnalytics.SaveInsights | predictive_analytics.py:191-203 | One alert per kept insight is appended in order, its type the severity; nothing else changes. |
| PredictiveAnalytics.SavedAreTheAnomalies | predictive_analytics.py:162-201 | Saving the generated insights saves exactly the anomaly insights, in order, and no trend insight. |
| NotificationSystem.SeverityOf | notification_system.py:138-145 | Only an anomaly can be critical; an anomaly is never 'info'; a type other than anomaly or trend is always 'info'. |
| NotificationSystem.CriticalWhenNamed | notification_system.py:140-143 | An anomaly whose message contains heart_rate or oxygen_saturation anywhere is critical. |
| NotificationSystem.TrendSeverity | notification_system.py:144-145 | A trend whose message contains "decrease" is a warning; one whose message has no letter d, so no "decrease", is info. |
| NotificationSystem.FormatNotification | notification_system.py:88-106 | Formats to a notification iff the type is 'anomaly' or 'trend', carrying the message, the severity and the prediction. |
| NotificationSystem.OtherTypesDropped | notification_system.py:139-150 | Any other type, such as 'test', has severity 'info' and formats to nothing. |
| NotificationSystem.InsightsNeverCritical | notification_system.py:139-145 | A message without '_' never contains 'heart_rate' or 'oxygen_saturation', so it is never 'critical'. An anomaly is then 'warning'. |
| NotificationSystem.InsightRunNeverCritical | notification_system.py:139-145 | No insight that generate_health_insights produces is classified 'critical'. |
| NotificationSystem.TrendDeclineWarns | notification_system.py:144-145 | A trend insight predicting a decrease is classified 'warning'. |
| NotificationSystem.Gateway.Send | notification_system.py:34-86 | Each send attempt is recorded, and its result is the delivery verdict. |
| NotificationSystem.NotifyEmergencyContacts | notification_system.py:108-134 | No contacts: no send. Otherwise, per contact in order, an email if it has one and an SMS if it has a phone. It raises before any send where `full_name` is missing. |
| NotificationSystem.ContactFanOut | notification_system.py:125-134 | The number of contact sends is the number of contacts with an email plus the number with a phone. Every email carries the alert subject and text, and every SMS the text. |
| NotificationSystem.TwoFullContacts | notification_system.py:125-134 | Two contacts with both an email and a phone give four attempts: email, SMS, email, SMS. |
| NotificationSystem.NotifyUser | notification_system.py:164-185 | The in-app send is always attempted. Email and SMS are attempted per severity, preference and contact detail, and a channel is listed only when its send succeeds. |
| NotificationSystem.HandlePrediction | notification_system.py:136-202 | Unformattable type or unknown user: nothing is sent or logged. Otherwise the preference row is loaded or created, the user's sends and (for 'critical') the contact sends are made, and exactly one log is written with the severity and the channels. A contact AttributeError writes no log. |
| NotificationSystem.ChannelOrder | notification_system.py:164-190 | Channels come in the order in_app, email, sms, emergency_contacts, each at most once. |
| NotificationSystem.ChannelMembership | notification_system.py:167-190 | in_app iff the in-app send succeeded. Email and SMS iff escalated, enabled, the detail is present and the send succeeded. emergency_contacts iff critical, whatever the sends did. |
| NotificationSystem.QuietHoursIgnored | notification_system.py:157-190 | Quiet hours change neither the sends nor the channels. |
| EmergencyHandler.MessageLine | emergency_handler.py:57-58 | The "Message: " line is present iff the custom message is truthy. |
| EmergencyHandler.VitalsBlock | emergency_handler.py:60-65 | The vitals block opens with "\nVital Signs:\n" iff there is a latest reading. |
| EmergencyHandler.Footer | emergency_handler.py:67-69 | The closing part opens with the location placeholder line, contains the "Time: …" line and ends with "Please respond immediately!". |
| EmergencyHandler.EmergencyMessage | emergency_handler.py:53-71 | The message starts with the header and ends with the location, time and "Please respond immediately!" footer. The Message line follows the header iff the custom text is truthy, and the vitals block follows iff vitals exist. |
| EmergencyHandler.ContactLogs | emergency_handler.py:33-44 | One log per contact, in contact order. |
| EmergencyHandler.OneLogPerContact | emergency_handler.py:37-43 | Each log is type EMERGENCY and severity HIGH, reads "Emergency alert sent to {name}", and has channels 'sms,email'. |
| EmergencyHandler.Handler.NotifyContact | emergency_handler.py:73-77 | An SMS call is made only when twilio is enabled. |
| EmergencyHandler.Handler.HandleEmergency | emergency_handler.py:9-51 | Where `Alert` accepts no 'severity' keyword it returns (False, the TypeError text) with nothing persisted. Otherwise it writes one EMERGENCY alert and one log per contact and returns (True, "Emergency contacts have been notified"), even with zero contacts. |
| EmergencyHandler.SeverityIsRejected | emergency_handler.py:24-29 | The Alert model declares no 'severity' column. |
| MedicationReminder.Normalise | medication_reminder.py:59 | Normalising keeps the length. Upper-case letters become their lower-case letters, the result has an underscore exactly where the input had a space or an underscore, and every other character is kept. |
| MedicationReminder.NormaliseIdempotent | medication_reminder.py:59 | Normalising twice is normalising once. |
| MedicationReminder.NormaliseExamples | medication_reminder.py:59 | "Twice Daily" becomes "twice_daily". |
| MedicationReminder.ShouldTake | medication_reminder.py:47-63 | A medication is due only when its normalised frequency is a key of the table, and only at an hour from 8 to 21. |
| MedicationReminder.ShouldTakeExamples | medication_reminder.py:59-61 | "Twice Daily" is matched after normalising: due at 9 and 21, not at 14. |
| MedicationReminder.DailyNeverDue | medication_reminder.py:60-63 | 'daily' is not in the table, so it is never due. |
| MedicationReminder.WeeklyAndMonthlyDaily | medication_reminder.py:55-61 | 'weekly' and 'monthly' are due at hour 9 every day, and only then. |
| MedicationReminder.DueHours | medication_reminder.py:50-57 | A due hour is one of 8, 9, 12, 14, 16, 20, 21. |
| MedicationReminder.DueMembers | medication_reminder.py:24-27 | A medication is reminded iff it is a candidate and due at this hour. |
| MedicationReminder.RemindersFor | medication_reminder.py:24-40 | Each due medication gives one reminder text and one log, in order. The first due one raises outside a request context. |
| MedicationReminder.CheckMedications | medication_reminder.py:11-45 | Over the medications active today: the reminders and their logs are committed, or nothing where the flash raises. |
| Records.ActiveMedications | medication_reminder.py:17-21 | A medication is a candidate iff start ≤ today and the end date is unset or ≥ today. |
| VitalManager.Manager.AddEmergencyContact | vital_manager.py:29-32 | Exactly one contact is appended at the end, and nothing else changes. |
| VitalManager.Manager.AddMedicationReminder | vital_manager.py:34-43 | A time that is not "%H:%M" raises and leaves the schedule unchanged. Otherwise one reminder is appended. |
| VitalManager.Manager.TriggerSos | vital_manager.py:45-64 | No contacts: False, and the history is unchanged. Otherwise True and exactly one SOS 'sent' entry, whatever the contact count. |
| VitalManager.Manager.CheckMedicationReminders | vital_manager.py:66-79 | Returns the due reminders in schedule order without changing anything. |
| VitalManager.IsDue | vital_manager.py:71-75 | Due iff now lies within 300 s either side of the scheduled second of the day, both ends included. |
| VitalManager.DueRemindersMembers | vital_manager.py:70-77 | A reminder is returned iff it is scheduled and within 300 s of now. |
| VitalManager.WindowInclusive | vital_manager.py:74-75 | Exactly 300 s early or late is due; 300.5 s late is not. |
| VitalManager.NoMidnightWrap | vital_manager.py:71-75 | A reminder at 23:58 is not due at 00:01. |
| VitalManager.AddedReminderDueAtItsTime | vital_manager.py:36-43 | A reminder added from a valid time is due at that time. |
| Clock.ParseClock | vital_manager.py:36 | A parsed time has hour < 24 and minute < 60. |
| Clock.ParseClockExamples | web_app.py:279-282 | "09:00" and "9:5" parse; "24:00", "12:60", "12:345" and "0900" raise. |
| Clock.ParseClockRoundTrip | web_app.py:279-282 | Every time of day printed as "%H:%M" parses back to itself. |
| Scheduler.ReportScheduler.AddSchedule | scheduler.py:78-87 | One new active row under a fresh key, with the given frequency and period. |
| Scheduler.ReportScheduler.UpdateSchedule | scheduler.py:89-103 | Missing id: False, and nothing changes. Otherwise True and the row becomes `Updated`. |
| Scheduler.Updated | scheduler.py:95-101 | The frequency changes only when truthy. The period and the flag change whenever given. The user is kept. |
| Scheduler.FalsyArguments | scheduler.py:95-101 | An empty frequency is ignored, while a period of 0 and active=False are applied. |
| Scheduler.EmptyUpdateIsIdentity | scheduler.py:89-103 | An update with no arguments leaves the row as it was. |
| Scheduler.UpdateIdempotent | scheduler.py:95-101 | Applying the same update twice is applying it once. |
| Scheduler.ReportScheduler.DeleteSchedule | scheduler.py:105-112 | Returns True and removes the row iff it exists; otherwise returns False and the table is unchanged. |
| Scheduler.DeleteTwice | scheduler.py:105-112 | Deleting the same id twice: the second call returns False, and the table ends as the old one minus that row. |
| ReportGenerator.Selected | report_generator.py:77-80 | Selects exactly the user's alerts at or after `since`. |
| ReportGenerator.Summary | report_generator.py:74-89 | A summary exists iff the report holds a user row. Given the bare id the web routes pass, `self.user.id` raises. |
| ReportGenerator.SummaryCounts | report_generator.py:82-86 | total counts the selected alerts, warning + danger ≤ total, and recent holds min(5, total) alerts. |
| ReportGenerator.KindsWithinTotal | report_generator.py:84-85 | The two exact-type counts never exceed the count of alerts. |
| ReportGenerator.CaseSensitiveCounts | report_generator.py:84-85 | 'Warning' and 'DANGER' are counted in neither. |
| ReportGenerator.RecentFacts | report_generator.py:80-86 | The recent alerts are the user's, from the period, newest first. |
| ReportGenerator.RecentAreNewest | report_generator.py:80-86 | No alert left out of recent is newer than one in it. |
| ReportGenerator.MedicationSummary | report_generator.py:91-100 | Exactly the medications active today. |
| AlertOrder.SortNewestFirst | web_app.py:82-85 | Ordering by timestamp descending is a permutation in newest-first order. |
| AlertOrder.InsertKeepsOrder | web_app.py:85 | Inserting into a newest-first list keeps it newest first. |
| AlertOrder.SortKeepsMembers | web_app.py:82-85 | Sorting keeps the length and exactly the same alerts. |
| Store.AlertTable.IndexOf | web_app.py:99 | `get_or_404` finds the row carrying the id, or no row has it. |
| Store.PreferenceTable.Load | notification_system.py:157-161 | Returns the stored row, or creates and stores the default row (both channels enabled). |
| WebApp.Acknowledged | web_app.py:103-104 | The alert becomes acknowledged and stamped, and no other field changes. |
| WebApp.AcknowledgeAlert | web_app.py:96-106 | Unknown id: 404. Another user's alert: 403, and it is unchanged. Otherwise 200, and only that row is stamped. |
| WebApp.AcknowledgeTwice | web_app.py:103-104 | A repeated acknowledge overwrites the first time stamp. |
| WebApp.Pending | web_app.py:82-84 | Selects exactly the user's unacknowledged alerts. |
| WebApp.GetAlerts | web_app.py:79-94 | The listing holds exactly the user's unacknowledged alerts, newest first. |
| WebApp.AcknowledgedLeavesListing | web_app.py:82-104 | After acknowledging, the alert leaves its owner's listing and every other pending alert stays. |
| WebApp.PreferencesFromForm | web_app.py:272-282 | Each channel is on iff its field is 'on'. A quiet-hours value changes only when the field is non-empty. A non-empty field sets it to the time `strptime` parses. It fails iff a non-empty field is not "%H:%M". |
| WebApp.UpdateNotificationPreferences | web_app.py:265-284 | Commits that row for the user, or persists nothing when strptime raises. |
| WebApp.QuietStartRoundTrip | web_app.py:279-280 | A quiet-hours start typed as "%H:%M" is stored as that time of day. |
| WebApp.EmptyFormDisablesChannels | web_app.py:273-274 | An empty form turns both channels off and keeps the quiet hours. |
| WebApp.OnlyOnChecks | web_app.py:273 | Any value other than 'on' counts as unchecked. |
| WebApp.ScheduleReport | web_app.py:306-321 | The frequency defaults to 'daily' and the period to 30, also when it is not an integer. A frequency outside daily/weekly/monthly creates nothing. |
| WebApp.ExportPlan | web_app.py:383-403 | csv with type 'all' (the default) is rejected. Formats other than csv, excel and json are rejected. csv exports the named type. |

## Left out

- The IsolationForest and RandomForest models, the rolling/diff/bfill feature
  engineering and the scaler are parameters: the outlier labels, the last feature row
  and the one-step predictor. Their internals are not modelled.
- `_detect_anomalies` of vital_analyzer.py enters only as the verdict on the last row.
- Floating point is not modelled.
  - Readings are exact reals.
  - `np.std` and `Series.std` are compared through their squares.
  - The square root the anomaly report needs is a parameter.
  - `str(float)` in the range-alert and emergency texts is a parameter `show`.
  - `:.1f` rounds an exact real half to even.
- `Fixed1` does not model float64 representation error, so a printed value can differ
  in its last digit from CPython's.
- Database sessions are not modelled. A row in a `Store` table is a committed row.
- SQLite key reuse after a delete is not modelled; `ReportScheduler` keys come from a
  counter.
- `created_at` and `updated_at` are not modelled.
- `Scheduler.ReportScheduler.AddSchedule` returns the new key, which `add_schedule`
  does not return. The key only names the row the contract describes.
- `AlertOrder.SortNewestFirst` keeps the table order of equal timestamps. The database
  leaves that order unspecified.
- SMTP, Twilio and SocketIO are one gateway. It records every attempt and takes
  success as a parameter.
- The printed lines of `_notify_contact` and `send_*` are left out, as are the flash
  messages, redirects and JSON bodies of the web routes.
- Threads, the APScheduler jobs, `generate_scheduled_reports`, the plots and the PDF
  output are concurrency, I/O and rendering, so they are left out.
- `vital_manager.py` `start_monitoring` and `stop_monitoring` are not modelled;
  `is_monitoring` is a field the modelled methods never change.
- The clock is a parameter everywhere.
  - Times are integer seconds, except `check_medication_reminders`, which takes the
    real seconds since local midnight.
  - The emergency message's time text is a parameter.
- Nullable columns of a vitals row are not modelled; a stored reading has all five values.
- The stored readings are passed in the order the queries return them, oldest first
  (`order_by(timestamp.asc())` in predictive_analytics.py). `VitalAnalyzer.HistoryOf`
  reverses that for `order_by(timestamp.desc())`. The model does not sort them. On rows
  given out of time order, the windows, examined rows and history differ from the
  database's.
- `Lower` folds ASCII letters only; Unicode case mapping is not modelled.
- `Clock.ParseClock` accepts ASCII digits only. CPython's `\d` in the `%H`/`%M`
  pattern matches any Unicode decimal digit, so "٠٩:٠٠" parses there and is None here.
- `int()` in `schedule_report` is a parameter `toInt`.
- `test_notifications` (web_app.py:287-301) is covered by
  `NotificationSystem.OtherTypesDropped`: type 'test' sends nothing and logs nothing.
- `NotificationSystem.TrendDeclineWarns`: only the decline direction is stated. That a
  rising trend is 'info' would need a proof that "Predicted 12.5% increase in …" has no
  "decrease" infix. The message text makes this true, but it is not proved here.
- The web routes that depend on the undefined `health_predictor` global
  (web_app.py:209,223) are not part of this model.
