/** `HealthReport` (report_generator.py): the alert summary of the last days and the
    list of current medications. */
module ReportGenerator {
  import opened Common
  import opened Records
  import opened AlertOrder

  /** What the report was built with. `HealthReport(user)` reads `self.user.id`: the
      web routes pass the bare id, on which that attribute read raises AttributeError. */
  datatype Subject = UserRow(id: int) | BareId(n: int)

  datatype AlertSummary = AlertSummary(total: nat, warning: nat, danger: nat, recent: seq<Alert>)

  /** The alerts of a user at or after a time, in table order. */
  function Selected(alerts: seq<Alert>, userId: int, since: int): (r: seq<Alert>)
    ensures forall a :: a in r <==> a in alerts && a.userId == userId && a.timestamp >= since
  {
    if alerts == [] then []
    else
      var a := alerts[|alerts| - 1];
      assert alerts == alerts[..|alerts| - 1] + [a];
      Selected(alerts[..|alerts| - 1], userId, since) + (if a.userId == userId && a.timestamp >= since then [a] else [])
  }

  /** `len([a for a in alerts if a.type == kind])`. */
  function CountKind(s: seq<Alert>, kind: string): (n: nat)
    ensures n <= |s|
  {
    if s == [] then 0
    else CountKind(s[..|s| - 1], kind) + (if s[|s| - 1].kind == kind then 1 else 0)
  }

  /** `generate_alert_summary(days)` at `now`, over the whole `alerts` table. */
  function Summary(subject: Subject, alerts: seq<Alert>, now: int, days: int): (r: Option<AlertSummary>)
    ensures r.Some? <==> subject.UserRow?
  {
    match subject
    case BareId(_) => None
    case UserRow(id) =>
      var rows := SortNewestFirst(Selected(alerts, id, now - days * 86400));
      Some(AlertSummary(|rows|, CountKind(rows, "warning"), CountKind(rows, "danger"), rows[..Min(5, |rows|)]))
  }

  /** The two type counts never exceed the total, since one alert has one type. */
  lemma {:induction false} KindsWithinTotal(s: seq<Alert>)
    ensures CountKind(s, "warning") + CountKind(s, "danger") <= |s|
    decreases |s|
  {
    if s != [] {
      KindsWithinTotal(s[..|s| - 1]);
    }
  }

  /** `total` counts exactly the user's alerts of the period, the type counts stay within
      it, and `recent` holds `min(5, total)` alerts. */
  lemma SummaryCounts(id: int, alerts: seq<Alert>, now: int, days: int)
    ensures var r := Summary(UserRow(id), alerts, now, days).value;
            r.total == |Selected(alerts, id, now - days * 86400)|
            && r.warning + r.danger <= r.total
            && |r.recent| == Min(5, r.total)
  {
    var selected := Selected(alerts, id, now - days * 86400);
    SortKeepsMembers(selected);
    KindsWithinTotal(SortNewestFirst(selected));
  }

  /** The recent alerts are the user's, from the period, newest first. */
  lemma RecentFacts(id: int, alerts: seq<Alert>, now: int, days: int)
    ensures var r := Summary(UserRow(id), alerts, now, days).value;
            (forall a :: a in r.recent ==> a in alerts && a.userId == id && a.timestamp >= now - days * 86400)
            && NewestFirst(r.recent)
  {
    var selected := Selected(alerts, id, now - days * 86400);
    var rows := SortNewestFirst(selected);
    SortKeepsMembers(selected);
    var recent := rows[..Min(5, |rows|)];
    forall a | a in recent
      ensures a in selected
    {
      assert a in rows;
    }
    forall i, j | 0 <= i < j < |recent|
      ensures recent[i].timestamp >= recent[j].timestamp
    {
      assert recent[i] == rows[i] && recent[j] == rows[j];
    }
  }

  /** No alert left out of `recent` is newer than one in it. */
  lemma RecentAreNewest(id: int, alerts: seq<Alert>, now: int, days: int)
    ensures var rows := SortNewestFirst(Selected(alerts, id, now - days * 86400));
            var r := Summary(UserRow(id), alerts, now, days).value;
            forall x, y :: x in r.recent && y in rows[|r.recent|..] ==> x.timestamp >= y.timestamp
  {
    var rows := SortNewestFirst(Selected(alerts, id, now - days * 86400));
    var k := Min(5, |rows|);
    forall x, y | x in rows[..k] && y in rows[k..]
      ensures x.timestamp >= y.timestamp
    {
      var i :| 0 <= i < k && rows[..k][i] == x;
      var j :| 0 <= j < |rows| - k && rows[k..][j] == y;
      assert rows[i] == x && rows[k + j] == y;
    }
  }

  /** Type matches are exact: "Warning" and "DANGER" are counted in neither. */
  lemma CaseSensitiveCounts(a: Alert)
    requires a.kind == "Warning" || a.kind == "DANGER"
    ensures CountKind([a], "warning") == 0 && CountKind([a], "danger") == 0
  {
    assert [a][..0] == [];
  }

  /** `generate_medication_summary()`: the user's medications active on `today`. */
  function MedicationSummary(subject: Subject, meds: seq<Medication>, today: int): (r: Option<seq<Medication>>)
    ensures r.Some? <==> subject.UserRow?
    ensures r.Some? ==> forall m :: m in r.value <==> (m in meds && m.ActiveOn(today))
  {
    if subject.BareId? then None else Some(ActiveMedications(meds, today))
  }
}
