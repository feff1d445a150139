/** `EmergencyHandler` (emergency_handler.py): the emergency message built from the user's
    name, an optional custom message and the latest vital signs, the alert it records,
    and one notification log per emergency contact. */
module EmergencyHandler {
  import opened Common
  import opened Records
  import opened Store

  /** `f"{x}"` of a nullable text column: None renders as "None". */
  function Shown(x: Option<string>): string
  {
    if x.Some? then x.value else "None"
  }

  function Header(user: User): string
  {
    "EMERGENCY ALERT for " + Shown(user.firstName) + " " + Shown(user.lastName) + "\n"
  }

  /** The line added when the custom message is truthy. */
  function MessageLine(custom: Option<string>): (r: string)
    ensures Truthy(custom) ==> StartsWith(r, "Message: ")
    ensures !Truthy(custom) ==> r == ""
  {
    if Truthy(custom) then
      var r := "Message: " + custom.value + "\n";
      assert r[..9] == "Message: ";
      r
    else ""
  }

  /** The five-line block added when there is a latest reading; `show` is `str` of a float. */
  function VitalsBlock(latest: Option<Sample>, show: real -> string): (r: string)
    ensures latest.Some? ==> StartsWith(r, "\nVital Signs:\n")
    ensures latest.None? ==> r == ""
  {
    if latest.None? then ""
    else
      var s := latest.value;
      var rest := "Heart Rate: " + show(s.heartRate) + " bpm\n"
                  + "Blood Pressure: " + show(s.systolic) + "/" + show(s.diastolic) + " mmHg\n"
                  + "Temperature: " + show(s.temperature) + "°C\n"
                  + "Oxygen Saturation: " + show(s.oxygenSaturation) + "%\n";
      PrefixOfConcat("\nVital Signs:\n", rest);
      "\nVital Signs:\n" + rest
  }

  /** The closing lines; `time` is the local clock as "%Y-%m-%d %H:%M:%S". */
  function Footer(time: string): (r: string)
    ensures |r| >= 2 && r[0] == '\n' && r[1] == 'L'
    ensures StartsWith(r, "\nLocation: [Location will be added here]\n")
    ensures EndsWith(r, "\nPlease respond immediately!")
    ensures Contains(r, "Time: " + time + "\n")
  {
    var location := "\nLocation: [Location will be added here]\n";
    var closing := "\nPlease respond immediately!";
    var stamp := "Time: " + time + "\n";
    PrefixOfConcat(location, stamp + closing);
    assert (location + stamp + closing)[|location + stamp|..] == closing;
    ContainsInfix(location, stamp, closing);
    location + stamp + closing
  }

  lemma PrefixOfConcat(a: string, b: string)
    ensures StartsWith(a + b, a) && (a + b)[|a|..] == b
  {
    assert (a + b)[..|a|] == a;
  }

  lemma StartsWithExtends(a: string, b: string, t: string)
    requires StartsWith(a, t)
    ensures StartsWith(a + b, t)
  {
    assert (a + b)[..|t|] == a[..|t|];
  }

  /** Texts that differ at a position inside both do not start alike. */
  lemma DiffersAt(s: string, t: string, k: nat)
    requires k < |s| && k < |t| && s[k] != t[k]
    ensures !StartsWith(s, t)
  {
    if |t| <= |s| {
      assert s[..|t|][k] == s[k];
    }
  }

  /** Four texts joined; each part sits at the offset the lengths before it give. */
  function Join(h: string, m: string, b: string, f: string): (r: string)
    ensures StartsWith(r, h) && EndsWith(r, f) && |h| + |m| <= |r|
    ensures r[|h|..] == m + (b + f) && r[|h| + |m|..] == b + f
  {
    var r := h + (m + (b + f));
    assert r == (h + m) + (b + f);
    assert r[..|h|] == h;
    r
  }

  /** `_create_emergency_message(user, vitals, custom_msg)`. */
  function EmergencyMessage(user: User, latest: Option<Sample>, custom: Option<string>, time: string,
                            show: real -> string): (r: string)
    ensures StartsWith(r, Header(user)) && EndsWith(r, Footer(time))
    ensures |Header(user)| + |MessageLine(custom)| <= |r|
    ensures Truthy(custom) <==> StartsWith(r[|Header(user)|..], "Message: ")
    ensures latest.Some? <==> StartsWith(r[|Header(user)| + |MessageLine(custom)|..], "\nVital Signs:\n")
  {
    var b := VitalsBlock(latest, show);
    var f := Footer(time);
    MessageBodyOpens(latest, show, time, b, f);
    MessageLineOpens(custom, b + f);
    Join(Header(user), MessageLine(custom), b, f)
  }

  /** The custom line is there exactly when the custom message is truthy. */
  lemma MessageLineOpens(custom: Option<string>, rest: string)
    requires |rest| >= 1 && rest[0] == '\n'
    ensures Truthy(custom) <==> StartsWith(MessageLine(custom) + rest, "Message: ")
  {
    if Truthy(custom) {
      StartsWithExtends(MessageLine(custom), rest, "Message: ");
    } else {
      assert MessageLine(custom) + rest == rest;
      DiffersAt(rest, "Message: ", 0);
    }
  }

  /** What follows the message line opens with the vitals heading exactly when there is
      a reading, and with a line break either way. */
  lemma MessageBodyOpens(latest: Option<Sample>, show: real -> string, time: string, b: string, f: string)
    requires b == VitalsBlock(latest, show) && f == Footer(time)
    ensures |b + f| >= 1 && (b + f)[0] == '\n'
    ensures latest.Some? <==> StartsWith(b + f, "\nVital Signs:\n")
  {
    if latest.Some? {
      StartsWithExtends(b, f, "\nVital Signs:\n");
    } else {
      assert b + f == f;
      DiffersAt(f, "\nVital Signs:\n", 1);
    }
  }

  /** The text of the TypeError a model constructor raises for an undeclared keyword. */
  function InvalidKeyword(name: string, model: string): string
  {
    "'" + name + "' is an invalid keyword argument for " + model
  }

  /** The log written for one contact. */
  function ContactLog(userId: int, c: Contact, now: int): NotificationLog
  {
    NotificationLog(userId, "EMERGENCY", "HIGH", "Emergency alert sent to " + c.name, "sms,email", now)
  }

  function ContactLogs(userId: int, contacts: seq<Contact>, now: int): (r: seq<NotificationLog>)
    ensures |r| == |contacts|
    ensures forall i :: 0 <= i < |contacts| ==> r[i] == ContactLog(userId, contacts[i], now)
  {
    seq(|contacts|, i requires 0 <= i < |contacts| => ContactLog(userId, contacts[i], now))
  }

  /** One recorded call of `_send_sms`. */
  datatype SmsCall = SmsCall(phone: string, message: string)

  function SmsCalls(contacts: seq<Contact>, message: string): (r: seq<SmsCall>)
    ensures |r| == |contacts|
    ensures forall i :: 0 <= i < |contacts| ==> r[i] == SmsCall(contacts[i].phone, message)
  {
    seq(|contacts|, i requires 0 <= i < |contacts| => SmsCall(contacts[i].phone, message))
  }

  class Handler {
    var twilioEnabled: bool
    /** The calls of `_send_sms`, a placeholder that sends nothing. */
    var smsCalls: seq<SmsCall>

    constructor ()
      ensures !twilioEnabled && smsCalls == []
    {
      twilioEnabled := false;
      smsCalls := [];
    }

    /** `_notify_contact`: the SMS step runs only when Twilio is enabled; the rest is console output. */
    method NotifyContact(c: Contact, message: string)
      modifies this
      ensures twilioEnabled == old(twilioEnabled)
      ensures smsCalls == old(smsCalls) + (if twilioEnabled then [SmsCall(c.phone, message)] else [])
    {
      if twilioEnabled {
        smsCalls := smsCalls + [SmsCall(c.phone, message)];
      }
    }

    /** `handle_emergency(user, message)`. `latest` is the newest vital-sign row, `time`
        the local clock text, `now` the UTC time the row defaults take, and `alertColumns`
        the keywords the `Alert` model accepts. The alert is built with a `severity`
        keyword: where the model does not declare it, the constructor raises before any
        contact is reached and the rollback leaves nothing behind. */
    method HandleEmergency(user: User, latest: Option<Sample>, custom: Option<string>, time: string,
                           show: real -> string, now: int, alertColumns: set<string>,
                           alerts: AlertTable, logs: LogTable)
      returns (ok: bool, reply: string)
      requires alerts.Valid()
      modifies this, alerts, logs
      ensures alerts.Valid() && twilioEnabled == old(twilioEnabled)
      ensures "severity" !in alertColumns ==>
                !ok && reply == InvalidKeyword("severity", "Alert")
                && alerts.alerts == old(alerts.alerts) && logs.entries == old(logs.entries)
                && smsCalls == old(smsCalls)
      ensures "severity" in alertColumns ==>
                var text := EmergencyMessage(user, latest, custom, time, show);
                ok && reply == "Emergency contacts have been notified"
                && alerts.alerts == old(alerts.alerts) + [NewAlert(|old(alerts.alerts)| + 1, user.id, "EMERGENCY", text, now)]
                && logs.entries == old(logs.entries) + ContactLogs(user.id, user.contacts, now)
                && smsCalls == old(smsCalls) + (if twilioEnabled then SmsCalls(user.contacts, text) else [])
    {
      var text := EmergencyMessage(user, latest, custom, time, show);
      if "severity" !in alertColumns {
        return false, InvalidKeyword("severity", "Alert");
      }
      RecordAndNotify(user, text, now, alerts, logs);
      ok, reply := true, "Emergency contacts have been notified";
    }

    /** The alert insert and the loop over the contacts. */
    method RecordAndNotify(user: User, text: string, now: int, alerts: AlertTable, logs: LogTable)
      requires alerts.Valid()
      modifies this, alerts, logs
      ensures alerts.Valid() && twilioEnabled == old(twilioEnabled)
      ensures alerts.alerts == old(alerts.alerts) + [NewAlert(|old(alerts.alerts)| + 1, user.id, "EMERGENCY", text, now)]
      ensures logs.entries == old(logs.entries) + ContactLogs(user.id, user.contacts, now)
      ensures smsCalls == old(smsCalls) + (if twilioEnabled then SmsCalls(user.contacts, text) else [])
    {
      var id := alerts.Add(user.id, "EMERGENCY", text, now);
      var i := 0;
      while i < |user.contacts|
        invariant 0 <= i <= |user.contacts|
        invariant twilioEnabled == old(twilioEnabled)
        invariant alerts.alerts == old(alerts.alerts) + [NewAlert(id, user.id, "EMERGENCY", text, now)]
        invariant logs.entries == old(logs.entries) + ContactLogs(user.id, user.contacts[..i], now)
        invariant smsCalls == old(smsCalls) + (if twilioEnabled then SmsCalls(user.contacts[..i], text) else [])
      {
        var c := user.contacts[i];
        assert user.contacts[..i + 1] == user.contacts[..i] + [c];
        NotifyContact(c, text);
        logs.Add(ContactLog(user.id, c, now));
        i := i + 1;
      }
      assert user.contacts[..|user.contacts|] == user.contacts;
    }
  }

  /** The `Alert` model does not declare `severity`, so every call of `handle_emergency`
      ends in the failure branch and no contact is reached. */
  lemma SeverityIsRejected()
    ensures "severity" !in AlertColumns
  {
    assert "severity" != "id" && "severity" != "type" && "severity" != "timestamp";
  }

  /** Each contact's log names it, in contact order; zero contacts give zero logs. */
  lemma OneLogPerContact(userId: int, contacts: seq<Contact>, now: int)
    ensures |ContactLogs(userId, contacts, now)| == |contacts|
    ensures forall i :: 0 <= i < |contacts| ==>
              ContactLogs(userId, contacts, now)[i].message == "Emergency alert sent to " + contacts[i].name
              && ContactLogs(userId, contacts, now)[i].channels == "sms,email"
  {
  }
}
