/** The rule-bearing parts of the web routes (web_app.py): acknowledging an alert, the
    unacknowledged-alert listing, saving notification preferences from a form, and the
    validation in front of report scheduling and data export. A form or query string is
    a map from field name to text. */
module WebApp {
  import opened Common
  import opened Records
  import opened Store
  import opened Clock
  import opened AlertOrder
  import Scheduler

  /** `request.form.get(name)`. */
  function FormGet(form: map<string, string>, name: string): Option<string>
  {
    if name in form then Some(form[name]) else None
  }

  /* ---------- Alerts ---------- */

  /** The row after `acknowledged = True; acknowledged_at = utcnow()`. */
  function Acknowledged(a: Alert, now: int): (r: Alert)
    ensures r.acknowledged && r.acknowledgedAt == Some(now)
    ensures r.(acknowledged := a.acknowledged, acknowledgedAt := a.acknowledgedAt) == a
  {
    a.(acknowledged := true, acknowledgedAt := Some(now))
  }

  /** `acknowledge_alert(alert_id)` by the logged-in `userId`: 404 for an unknown id,
      403 for another user's alert, otherwise the row is stamped and 200 returned. */
  method AcknowledgeAlert(table: AlertTable, userId: int, alertId: int, now: int) returns (status: int)
    requires table.Valid()
    modifies table
    ensures table.Valid()
    ensures old(table.IndexOf(alertId)).None? ==> status == 404 && table.alerts == old(table.alerts)
    ensures old(table.IndexOf(alertId)).Some? ==>
              var i := old(table.IndexOf(alertId)).value;
              if old(table.alerts)[i].userId != userId then
                status == 403 && table.alerts == old(table.alerts)
              else
                status == 200 && table.alerts == old(table.alerts)[i := Acknowledged(old(table.alerts)[i], now)]
  {
    var found := table.IndexOf(alertId);
    if found.None? {
      return 404;
    }
    var i := found.value;
    var alert := table.alerts[i];
    if alert.userId != userId {
      return 403;
    }
    table.Put(i, Acknowledged(alert, now));
    status := 200;
  }

  /** A repeated acknowledge is not idempotent: the second stamp replaces the first. */
  lemma AcknowledgeTwice(a: Alert, t1: int, t2: int)
    requires t1 != t2
    ensures Acknowledged(Acknowledged(a, t1), t2) == Acknowledged(a, t2)
    ensures Acknowledged(Acknowledged(a, t1), t2) != Acknowledged(a, t1)
  {
  }

  /** The user's unacknowledged alerts, in table order. */
  function Pending(alerts: seq<Alert>, userId: int): (r: seq<Alert>)
    ensures forall a :: a in r <==> a in alerts && a.userId == userId && !a.acknowledged
  {
    if alerts == [] then []
    else
      var a := alerts[|alerts| - 1];
      assert alerts == alerts[..|alerts| - 1] + [a];
      Pending(alerts[..|alerts| - 1], userId) + (if a.userId == userId && !a.acknowledged then [a] else [])
  }

  /** `get_alerts()`: the user's unacknowledged alerts, newest first. */
  function GetAlerts(alerts: seq<Alert>, userId: int): (r: seq<Alert>)
    ensures NewestFirst(r)
    ensures forall a :: a in r <==> a in alerts && a.userId == userId && !a.acknowledged
  {
    SortKeepsMembers(Pending(alerts, userId));
    SortNewestFirst(Pending(alerts, userId))
  }

  /** Once acknowledged, an alert leaves its owner's listing; the owner's other pending
      alerts stay. */
  lemma AcknowledgedLeavesListing(alerts: seq<Alert>, i: nat, now: int)
    requires i < |alerts| && forall k :: 0 <= k < |alerts| ==> alerts[k].id == k + 1
    ensures var after := alerts[i := Acknowledged(alerts[i], now)];
            (forall a :: a in GetAlerts(after, alerts[i].userId) ==> a.id != alerts[i].id)
            && (forall a :: a in GetAlerts(alerts, alerts[i].userId) && a.id != alerts[i].id ==>
                  a in GetAlerts(after, alerts[i].userId))
  {
    var after := alerts[i := Acknowledged(alerts[i], now)];
    var u := alerts[i].userId;
    forall a | a in GetAlerts(after, u)
      ensures a.id != alerts[i].id
    {
      var k :| 0 <= k < |after| && after[k] == a;
      assert after[i].acknowledged && !a.acknowledged;
      assert k != i;
      assert a.id == k + 1;
    }
    forall a | a in GetAlerts(alerts, u) && a.id != alerts[i].id
      ensures a in GetAlerts(after, u)
    {
      var k :| 0 <= k < |alerts| && alerts[k] == a;
      assert k != i && after[k] == a;
    }
  }

  /* ---------- Notification preferences ---------- */

  /** The row `update_notification_preferences` commits, from the stored row (or the
      defaults of a new one) and the form; None where a non-empty quiet-hours field is not
      "%H:%M" and `strptime` raises before the commit. */
  function PreferencesFromForm(base: Prefs, form: map<string, string>): (r: Option<Prefs>)
    ensures r.Some? ==> r.value.emailEnabled == (FormGet(form, "email_enabled") == Some("on"))
                        && r.value.smsEnabled == (FormGet(form, "sms_enabled") == Some("on"))
    ensures r.Some? && !Truthy(FormGet(form, "quiet_hours_start")) ==> r.value.quietStart == base.quietStart
    ensures r.Some? && !Truthy(FormGet(form, "quiet_hours_end")) ==> r.value.quietEnd == base.quietEnd
    ensures r.Some? && Truthy(FormGet(form, "quiet_hours_start")) ==>
              r.value.quietStart.Some? && r.value.quietStart == ParseClock(form["quiet_hours_start"])
    ensures r.Some? && Truthy(FormGet(form, "quiet_hours_end")) ==>
              r.value.quietEnd.Some? && r.value.quietEnd == ParseClock(form["quiet_hours_end"])
    ensures r.None? <==> (Truthy(FormGet(form, "quiet_hours_start")) && ParseClock(form["quiet_hours_start"]).None?)
                         || (Truthy(FormGet(form, "quiet_hours_end")) && ParseClock(form["quiet_hours_end"]).None?)
  {
    var start := FormGet(form, "quiet_hours_start");
    var end := FormGet(form, "quiet_hours_end");
    var p := base.(emailEnabled := FormGet(form, "email_enabled") == Some("on"),
                   smsEnabled := FormGet(form, "sms_enabled") == Some("on"));
    if Truthy(start) && ParseClock(start.value).None? then None
    else
      var p1 := if Truthy(start) then p.(quietStart := ParseClock(start.value)) else p;
      if Truthy(end) && ParseClock(end.value).None? then None
      else Some(if Truthy(end) then p1.(quietEnd := ParseClock(end.value)) else p1)
  }

  /** `update_notification_preferences()` for `userId`: the committed row, or nothing
      persisted (not even a new row) when a quiet-hours field fails to parse. */
  method UpdateNotificationPreferences(prefs: PreferenceTable, userId: int, form: map<string, string>)
    returns (saved: bool)
    modifies prefs
    ensures var base := if userId in old(prefs.rows) then old(prefs.rows)[userId] else DefaultPrefs;
            var next := PreferencesFromForm(base, form);
            saved == next.Some?
            && prefs.rows == if saved then old(prefs.rows)[userId := next.value] else old(prefs.rows)
  {
    var base := DefaultPrefs;
    if userId in prefs.rows {
      base := prefs.rows[userId];
    }
    var next := PreferencesFromForm(base, form);
    if next.None? {
      return false;
    }
    prefs.Put(userId, next.value);
    saved := true;
  }

  /** An unchecked box turns its channel off: submitting an empty form disables both. */
  lemma EmptyFormDisablesChannels(base: Prefs)
    ensures PreferencesFromForm(base, map[]) == Some(base.(emailEnabled := false, smsEnabled := false))
  {
  }

  /** A quiet-hours start typed as "%H:%M" is stored as that time of day. */
  lemma QuietStartRoundTrip(base: Prefs, t: ClockTime)
    requires t.hour < 24 && t.minute < 60
    ensures PreferencesFromForm(base, map["quiet_hours_start" := ClockText(t)])
            == Some(base.(emailEnabled := false, smsEnabled := false, quietStart := Some(t)))
  {
    ParseClockRoundTrip(t);
  }

  /** Any value other than "on" — "true", "1", "ON" — also counts as unchecked. */
  lemma OnlyOnChecks(base: Prefs, value: string)
    requires value != "on"
    ensures PreferencesFromForm(base, map["email_enabled" := value]).value.emailEnabled == false
  {
  }

  /* ---------- Report scheduling and export ---------- */

  const Frequencies: seq<string> := ["daily", "weekly", "monthly"]

  /** `schedule_report()`: the frequency defaults to 'daily' and must be one of the three;
      the period defaults to 30, also when `int()` refuses it (`toInt` stands for that
      conversion). A rejected form creates nothing. */
  method ScheduleReport(scheduler: Scheduler.ReportScheduler, userId: int, form: map<string, string>,
                        toInt: string -> Option<int>)
    returns (created: Option<nat>)
    requires scheduler.Valid()
    modifies scheduler
    ensures scheduler.Valid()
    ensures var frequency := if "frequency" in form then form["frequency"] else "daily";
            var period := if "report_period" in form && toInt(form["report_period"]).Some?
                          then toInt(form["report_period"]).value else 30;
            if frequency in Frequencies then
              created.Some? && created.value !in old(scheduler.schedules)
              && scheduler.schedules == old(scheduler.schedules)[created.value := ReportSchedule(userId, frequency, period, true)]
            else
              created.None? && scheduler.schedules == old(scheduler.schedules)
  {
    var frequency := "daily";
    if "frequency" in form {
      frequency := form["frequency"];
    }
    var period := 30;
    if "report_period" in form {
      var parsed := toInt(form["report_period"]);
      if parsed.Some? {
        period := parsed.value;
      }
    }
    if frequency !in Frequencies {
      return None;
    }
    var id := scheduler.AddSchedule(userId, frequency, period);
    created := Some(id);
  }

  /** What `export_data(format)` does with the format and the `type` argument. */
  datatype Export = Rejected(message: string) | CsvOf(dataType: string) | Excel | Json

  function ExportPlan(format: string, query: map<string, string>): (r: Export)
    ensures var dataType := if "type" in query then query["type"] else "all";
            (r.Rejected? <==> format !in ["csv", "excel", "json"] || (format == "csv" && dataType == "all"))
            && (r.CsvOf? ==> format == "csv" && r.dataType == dataType)
            && (r.Excel? <==> format == "excel") && (r.Json? <==> format == "json")
  {
    var dataType := if "type" in query then query["type"] else "all";
    if format == "csv" then
      if dataType == "all" then Rejected("CSV export requires specifying data type (vitals or alerts)")
      else CsvOf(dataType)
    else if format == "excel" then Excel
    else if format == "json" then Json
    else Rejected("Unsupported export format")
  }
}
