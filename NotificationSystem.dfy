/** `NotificationSystem` (notification_system.py): severity from the prediction's type
    and message, the notification it formats to, the channels chosen from severity,
    preferences and contact details, the fan-out to emergency contacts and the one log
    per handled prediction. The senders are one gateway whose verdict per delivery is
    a parameter. */
module NotificationSystem {
  import opened Common
  import opened Records
  import opened Store
  import PredictiveAnalytics

  datatype Severity = Info | Warning | Critical
  {
    function Text(): string
    {
      match this
      case Info => "info"
      case Warning => "warning"
      case Critical => "critical"
    }
  }

  /** The fields of a prediction dict the handler reads. */
  datatype Prediction = Prediction(kind: string, message: string)

  /** The severity `handle_prediction` settles on. */
  function SeverityOf(p: Prediction): (r: Severity)
    ensures r == Critical ==> p.kind == "anomaly"
    ensures p.kind == "anomaly" ==> r != Info
    ensures p.kind != "anomaly" && p.kind != "trend" ==> r == Info
  {
    if p.kind == "anomaly" then
      if Contains(p.message, "heart_rate") || Contains(p.message, "oxygen_saturation") then Critical else Warning
    else if p.kind == "trend" && Contains(p.message, "decrease") then Warning
    else Info
  }

  /** An anomaly whose message names heart_rate or oxygen_saturation anywhere is critical. */
  lemma CriticalWhenNamed(pre: string, post: string)
    ensures SeverityOf(Prediction("anomaly", pre + "heart_rate" + post)) == Critical
    ensures SeverityOf(Prediction("anomaly", pre + "oxygen_saturation" + post)) == Critical
  {
    ContainsInfix(pre, "heart_rate", post);
    ContainsInfix(pre, "oxygen_saturation", post);
  }

  /** A trend whose message says "decrease" anywhere is a warning; one whose message has no
      'd' at all is info. */
  lemma TrendSeverity(pre: string, post: string, other: string)
    requires 'd' !in other
    ensures SeverityOf(Prediction("trend", pre + "decrease" + post)) == Warning
    ensures SeverityOf(Prediction("trend", other)) == Info
  {
    ContainsInfix(pre, "decrease", post);
    NotContainsMissingChar(other, "decrease", 'd');
  }

  /** The dict `format_notification` returns; `timestamp` is the isoformat text of the clock. */
  datatype Notification = Notification(title: string, message: string, severity: Severity,
                                       timestamp: string, data: Prediction)

  function FormatNotification(p: Prediction, severity: Severity, stamp: string): (r: Option<Notification>)
    ensures r.Some? <==> p.kind == "anomaly" || p.kind == "trend"
    ensures r.Some? ==> r.value.message == p.message && r.value.severity == severity && r.value.data == p
  {
    if p.kind == "anomaly" then Some(Notification("Abnormal Vital Signs Detected", p.message, severity, stamp, p))
    else if p.kind == "trend" then Some(Notification("Vital Signs Trend Alert", p.message, severity, stamp, p))
    else None
  }

  /** One attempted send. */
  datatype Delivery =
    | InApp(userId: int, notification: Notification)
    | Email(to: string, subject: string, body: string)
    | Sms(to: string, body: string)

  /** The SocketIO, SMTP and Twilio senders. Every attempt is recorded; whether it
      reports success (configured credentials, no exception) is `delivered`. */
  class Gateway {
    var attempts: seq<Delivery>
    const delivered: Delivery -> bool

    constructor (delivered: Delivery -> bool)
      ensures attempts == [] && this.delivered == delivered
    {
      attempts := [];
      this.delivered := delivered;
    }

    method Send(d: Delivery) returns (ok: bool)
      modifies this
      ensures attempts == old(attempts) + [d]
      ensures ok == delivered(d)
    {
      attempts := attempts + [d];
      ok := delivered(d);
    }
  }

  /* ---------- Emergency contacts ---------- */

  /** The multi-line text of `notify_emergency_contacts`, indentation included. */
  function ContactText(name: string, n: Notification): string
  {
    "\n        URGENT: Health Alert for " + name + "\n        \n        " + n.title + "\n        "
    + n.message + "\n        \n        Time: " + n.timestamp
    + "\n        \n        Please check the Vital Watch dashboard for more details.\n        "
  }

  function ContactSubject(name: string): string
  {
    "URGENT: Health Alert for " + name
  }

  /** The sends to one contact: email if it has a non-empty email, SMS if its phone is non-empty. */
  function ContactDeliveries(c: Contact, subject: string, text: string): seq<Delivery>
  {
    (if Truthy(c.email) then [Email(c.email.value, subject, text)] else [])
    + (if c.phone != "" then [Sms(c.phone, text)] else [])
  }

  function AllContactDeliveries(contacts: seq<Contact>, subject: string, text: string): seq<Delivery>
  {
    if contacts == [] then []
    else AllContactDeliveries(contacts[..|contacts| - 1], subject, text)
         + ContactDeliveries(contacts[|contacts| - 1], subject, text)
  }

  /** Building the text reads `user.full_name`, which `User` does not declare: with any
      contact present the call raises AttributeError before the first send. */
  predicate ContactsRaise(user: User)
  {
    user.contacts != [] && user.fullName.None?
  }

  /** The sends `notify_emergency_contacts` makes. */
  function EmergencySends(user: User, n: Notification): seq<Delivery>
  {
    if user.contacts == [] || user.fullName.None? then []
    else AllContactDeliveries(user.contacts, ContactSubject(user.fullName.value), ContactText(user.fullName.value, n))
  }

  /** `notify_emergency_contacts(user_id, notification)`; `raised` reports the AttributeError. */
  method NotifyEmergencyContacts(user: User, n: Notification, gateway: Gateway) returns (raised: bool)
    modifies gateway
    ensures raised == ContactsRaise(user)
    ensures gateway.attempts == old(gateway.attempts) + EmergencySends(user, n)
  {
    if user.contacts == [] {
      return false;
    }
    if user.fullName.None? {
      return true;
    }
    var name := user.fullName.value;
    var text := ContactText(name, n);
    var subject := ContactSubject(name);
    raised := false;
    var i := 0;
    while i < |user.contacts|
      invariant 0 <= i <= |user.contacts|
      invariant gateway.attempts == old(gateway.attempts) + AllContactDeliveries(user.contacts[..i], subject, text)
    {
      var c := user.contacts[i];
      assert user.contacts[..i + 1][..i] == user.contacts[..i];
      if Truthy(c.email) {
        var ok := gateway.Send(Email(c.email.value, subject, text));
      }
      if c.phone != "" {
        var ok := gateway.Send(Sms(c.phone, text));
      }
      i := i + 1;
    }
    assert user.contacts[..|user.contacts|] == user.contacts;
  }

  /** Number of contacts with a non-empty email. */
  function WithEmail(contacts: seq<Contact>): nat
  {
    if contacts == [] then 0
    else WithEmail(contacts[..|contacts| - 1]) + (if Truthy(contacts[|contacts| - 1].email) then 1 else 0)
  }

  /** Number of contacts with a non-empty phone. */
  function WithPhone(contacts: seq<Contact>): nat
  {
    if contacts == [] then 0
    else WithPhone(contacts[..|contacts| - 1]) + (if contacts[|contacts| - 1].phone != "" then 1 else 0)
  }

  /** One email per contact with an email and one SMS per contact with a phone, contact
      by contact, email first. */
  lemma {:induction false} ContactFanOut(contacts: seq<Contact>, subject: string, text: string)
    ensures |AllContactDeliveries(contacts, subject, text)|
            == WithEmail(contacts) + WithPhone(contacts)
    ensures forall d :: d in AllContactDeliveries(contacts, subject, text) ==>
              (d.Email? && d.subject == subject && d.body == text) || (d.Sms? && d.body == text)
    decreases |contacts|
  {
    if contacts != [] {
      ContactFanOut(contacts[..|contacts| - 1], subject, text);
    }
  }

  /** Two contacts that each have an email and a phone give four attempts. */
  lemma TwoFullContacts(a: Contact, b: Contact, subject: string, text: string)
    requires Truthy(a.email) && a.phone != "" && Truthy(b.email) && b.phone != ""
    ensures AllContactDeliveries([a, b], subject, text)
            == [Email(a.email.value, subject, text), Sms(a.phone, text), Email(b.email.value, subject, text), Sms(b.phone, text)]
  {
    assert [a, b][..1] == [a];
    assert [a][..0] == [];
    assert AllContactDeliveries([a], subject, text) == [Email(a.email.value, subject, text), Sms(a.phone, text)];
  }

  /* ---------- Handling one prediction ---------- */

  /** Severities that reach email and SMS. */
  predicate Escalated(s: Severity)
  {
    s == Warning || s == Critical
  }

  predicate EmailPlanned(s: Severity, prefs: Prefs, user: User)
  {
    Escalated(s) && prefs.emailEnabled && user.email != ""
  }

  predicate SmsPlanned(s: Severity, prefs: Prefs, user: User)
  {
    Escalated(s) && prefs.smsEnabled && Truthy(user.phone)
  }

  function UserEmail(user: User, n: Notification): Delivery
  {
    Email(user.email, n.title, n.message)
  }

  function UserSms(user: User, n: Notification): Delivery
    requires user.phone.Some?
  {
    Sms(user.phone.value, n.title + "\n" + n.message)
  }

  /** The sends to the user: in-app always, then email and SMS when planned. */
  function UserSends(userId: int, user: User, prefs: Prefs, n: Notification): seq<Delivery>
  {
    [InApp(userId, n)]
    + (if EmailPlanned(n.severity, prefs, user) then [UserEmail(user, n)] else [])
    + (if SmsPlanned(n.severity, prefs, user) then [UserSms(user, n)] else [])
  }

  /** The user channels whose send reported success, in the order they are tried. */
  function UserChannels(userId: int, user: User, prefs: Prefs, n: Notification, delivered: Delivery -> bool): seq<string>
  {
    (if delivered(InApp(userId, n)) then ["in_app"] else [])
    + (if EmailPlanned(n.severity, prefs, user) && delivered(UserEmail(user, n)) then ["email"] else [])
    + (if SmsPlanned(n.severity, prefs, user) && delivered(UserSms(user, n)) then ["sms"] else [])
  }

  /** `notifications_sent`: the successful user channels, then 'emergency_contacts' for a
      critical prediction whatever the contacts' sends did. */
  function Channels(userId: int, user: User, prefs: Prefs, n: Notification, delivered: Delivery -> bool): seq<string>
  {
    UserChannels(userId, user, prefs, n, delivered) + (if n.severity == Critical then ["emergency_contacts"] else [])
  }

  /** The in-app, email and SMS steps of `handle_prediction`. */
  method NotifyUser(userId: int, u: User, pr: Prefs, n: Notification, gateway: Gateway) returns (sent: seq<string>)
    modifies gateway
    ensures gateway.attempts == old(gateway.attempts) + UserSends(userId, u, pr, n)
    ensures sent == UserChannels(userId, u, pr, n, gateway.delivered)
  {
    sent := [];
    var ok := gateway.Send(InApp(userId, n));
    if ok {
      sent := sent + ["in_app"];
    }
    if n.severity == Warning || n.severity == Critical {
      if pr.emailEnabled && u.email != "" {
        ok := gateway.Send(Email(u.email, n.title, n.message));
        if ok {
          sent := sent + ["email"];
        }
      }
      if pr.smsEnabled && Truthy(u.phone) {
        ok := gateway.Send(Sms(u.phone.value, n.title + "\n" + n.message));
        if ok {
          sent := sent + ["sms"];
        }
      }
    }
  }

  /** How a call ends: returned early, logged, or raised out of the contact step. */
  datatype Outcome = Dropped | Logged(log: NotificationLog) | Raised

  /** `handle_prediction(user_id, prediction)`. `user` is the row `User.query.get` finds;
      `stamp` is the isoformat text of `now`. */
  method HandlePrediction(userId: int, user: Option<User>, p: Prediction, prefs: PreferenceTable,
                          gateway: Gateway, logs: LogTable, now: int, stamp: string)
    returns (outcome: Outcome)
    modifies prefs, gateway, logs
    ensures FormatNotification(p, SeverityOf(p), stamp).None? || user.None? ==>
              outcome == Dropped && gateway.attempts == old(gateway.attempts)
              && logs.entries == old(logs.entries) && prefs.rows == old(prefs.rows)
    ensures FormatNotification(p, SeverityOf(p), stamp).Some? && user.Some? ==>
              var n := FormatNotification(p, SeverityOf(p), stamp).value;
              var pr := if userId in old(prefs.rows) then old(prefs.rows)[userId] else DefaultPrefs;
              prefs.rows == old(prefs.rows)[userId := pr]
              && gateway.attempts == old(gateway.attempts) + UserSends(userId, user.value, pr, n)
                                     + (if n.severity == Critical then EmergencySends(user.value, n) else [])
              && (if n.severity == Critical && ContactsRaise(user.value) then
                    outcome == Raised && logs.entries == old(logs.entries)
                  else
                    outcome == Logged(NotificationLog(userId, p.kind, n.severity.Text(), p.message,
                                                      JsonList(Channels(userId, user.value, pr, n, gateway.delivered)), now))
                    && logs.entries == old(logs.entries) + [outcome.log])
  {
    var severity := SeverityOf(p);
    var formatted := FormatNotification(p, severity, stamp);
    if formatted.None? || user.None? {
      return Dropped;
    }
    var n := formatted.value;
    var u := user.value;
    var pr := prefs.Load(userId);
    var sent := NotifyUser(userId, u, pr, n, gateway);
    if severity == Critical {
      var raised := NotifyEmergencyContacts(u, n, gateway);
      if raised {
        return Raised;
      }
      sent := sent + ["emergency_contacts"];
    }
    assert sent == Channels(userId, u, pr, n, gateway.delivered);
    var log := NotificationLog(userId, p.kind, severity.Text(), n.message, JsonList(sent), now);
    logs.Add(log);
    outcome := Logged(log);
  }

  /* ---------- Properties ---------- */

  /** Position of a channel name in the order the handler tries the channels. */
  function ChannelRank(c: string): nat
  {
    if c == "in_app" then 0 else if c == "email" then 1 else if c == "sms" then 2 else 3
  }

  /** The channels come in the fixed order in_app, email, sms, emergency_contacts, each
      at most once. */
  lemma ChannelOrder(userId: int, user: User, prefs: Prefs, n: Notification, delivered: Delivery -> bool)
    ensures var ch := Channels(userId, user, prefs, n, delivered);
            forall i, j :: 0 <= i < j < |ch| ==> ChannelRank(ch[i]) < ChannelRank(ch[j])
  {
  }

  /** A user channel is listed iff its send was planned and reported success;
      'emergency_contacts' is listed iff the prediction is critical. */
  lemma ChannelMembership(userId: int, user: User, prefs: Prefs, n: Notification, delivered: Delivery -> bool)
    ensures var ch := Channels(userId, user, prefs, n, delivered);
            ("in_app" in ch <==> delivered(InApp(userId, n)))
            && ("email" in ch <==> Escalated(n.severity) && prefs.emailEnabled && user.email != ""
                                   && delivered(UserEmail(user, n)))
            && ("sms" in ch <==> Escalated(n.severity) && prefs.smsEnabled && Truthy(user.phone)
                                 && delivered(UserSms(user, n)))
            && ("emergency_contacts" in ch <==> n.severity == Critical)
  {
  }

  /** Quiet hours are stored but never consulted: the sends and channels are the same
      whatever they hold. */
  lemma QuietHoursIgnored(userId: int, user: User, prefs: Prefs, n: Notification, delivered: Delivery -> bool,
                          start: Option<ClockTime>, end: Option<ClockTime>)
    ensures var other := prefs.(quietStart := start, quietEnd := end);
            UserSends(userId, user, other, n) == UserSends(userId, user, prefs, n)
            && Channels(userId, user, other, n, delivered) == Channels(userId, user, prefs, n, delivered)
  {
  }

  /** The insight messages contain no '_', so none names a column: the critical branch,
      and with it every emergency-contact send and the AttributeError, is out of reach of
      the insights `generate_health_insights` produces. Anomaly insights are 'warning'. */
  lemma InsightsNeverCritical(x: PredictiveAnalytics.Insight)
    requires '_' !in x.message
    ensures SeverityOf(Prediction(x.kind, x.message)) != Critical
    ensures x.kind == "anomaly" ==> SeverityOf(Prediction(x.kind, x.message)) == Warning
  {
    NotContainsMissingChar(x.message, "heart_rate", '_');
    NotContainsMissingChar(x.message, "oxygen_saturation", '_');
  }

  /** Every insight of a run of `generate_health_insights` handles without reaching the
      contacts, and one log is written for it. */
  lemma InsightRunNeverCritical(window: seq<Sample>, flags: seq<bool>, sqrt: real -> real,
                                lastFeatures: seq<real>, predict: (Vital, seq<real>) -> real, now: int)
    requires |flags| == |window| && |lastFeatures| >= 1
    ensures forall x :: x in PredictiveAnalytics.HealthInsights(window, flags, sqrt, lastFeatures, predict, now) ==>
              SeverityOf(Prediction(x.kind, x.message)) != Critical
  {
    PredictiveAnalytics.InsightShapes(window, flags, sqrt, lastFeatures, predict, now);
    forall x | x in PredictiveAnalytics.HealthInsights(window, flags, sqrt, lastFeatures, predict, now)
      ensures SeverityOf(Prediction(x.kind, x.message)) != Critical
    {
      InsightsNeverCritical(x);
    }
  }

  /** A forecast of decline is escalated to 'warning'. */
  lemma TrendDeclineWarns(v: Vital, c: PredictiveAnalytics.Change, h: nat)
    requires !PredictiveAnalytics.Rising(c)
    ensures SeverityOf(Prediction("trend", PredictiveAnalytics.TrendMessage(v, c, h))) == Warning
  {
    ContainsInfix(PredictiveAnalytics.TrendHead(c), "decrease", PredictiveAnalytics.TrendTail(v, h));
  }

  /** A prediction of any other type, such as the 'test' one the preferences page sends,
      formats to nothing and is dropped. */
  lemma OtherTypesDropped(p: Prediction, stamp: string)
    requires p.kind != "anomaly" && p.kind != "trend"
    ensures FormatNotification(p, SeverityOf(p), stamp).None? && SeverityOf(p) == Info
  {
  }
}
