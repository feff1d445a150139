/** `MedicationReminder` (medication_reminder.py): which active medications are due at
    the current hour, from a fixed table of dosing hours keyed by the normalised
    frequency, and the reminder log written for each. */
module MedicationReminder {
  import opened Common
  import opened Records
  import opened Store

  /** `frequency.lower().replace(' ', '_')`: upper-case letters become lower-case,
      spaces become underscores, and every other character is kept. */
  function Normalise(f: string): (r: string)
    ensures |r| == |f| && ' ' !in r
    ensures forall i :: 0 <= i < |r| ==> !('A' <= r[i] <= 'Z')
    ensures forall i :: 0 <= i < |r| ==> (r[i] == '_' <==> f[i] == ' ' || f[i] == '_')
    ensures forall i :: 0 <= i < |r| && 'A' <= f[i] <= 'Z' ==> 'a' <= r[i] <= 'z' && r[i] as int == f[i] as int + 32
    ensures forall i :: 0 <= i < |r| && f[i] != ' ' && !('A' <= f[i] <= 'Z') ==> r[i] == f[i]
  {
    Replace(Lower(f), ' ', '_')
  }

  /** The dosing hours of each known frequency. */
  const Schedules: map<string, seq<nat>> := map[
    "once_daily" := [9],
    "twice_daily" := [9, 21],
    "three_times_daily" := [9, 14, 21],
    "four_times_daily" := [8, 12, 16, 20],
    "weekly" := [9],
    "monthly" := [9]]

  /** `_should_take_medication(medication, current_time)` at the hour of `current_time`. */
  predicate ShouldTake(m: Medication, hour: nat)
    ensures ShouldTake(m, hour) ==> Normalise(m.frequency) in Schedules && 8 <= hour <= 21
  {
    var f := Normalise(m.frequency);
    f in Schedules && hour in Schedules[f]
  }

  function ReminderText(m: Medication): string
  {
    "Time to take " + m.name + " - " + m.dosage
  }

  function ReminderLog(userId: int, m: Medication, now: int): NotificationLog
  {
    NotificationLog(userId, "MEDICATION_REMINDER", "MEDIUM", ReminderText(m), "APP_NOTIFICATION", now)
  }

  /** The medications of a list due at an hour, in list order. */
  function Due(meds: seq<Medication>, hour: nat): seq<Medication>
  {
    if meds == [] then []
    else Due(meds[..|meds| - 1], hour) + (if ShouldTake(meds[|meds| - 1], hour) then [meds[|meds| - 1]] else [])
  }

  function Texts(meds: seq<Medication>): seq<string>
  {
    if meds == [] then [] else Texts(meds[..|meds| - 1]) + [ReminderText(meds[|meds| - 1])]
  }

  function Logs(userId: int, meds: seq<Medication>, now: int): seq<NotificationLog>
  {
    if meds == [] then [] else Logs(userId, meds[..|meds| - 1], now) + [ReminderLog(userId, meds[|meds| - 1], now)]
  }

  /** `check_medications(user)`. `meds` are the user's medications in query order,
      `today` and `hour` the local date and hour. `inRequest` says whether a request
      context is active: `flash` needs one, and without it the first due medication
      raises RuntimeError, leaving its log uncommitted. None stands for that exception. */
  method CheckMedications(userId: int, meds: seq<Medication>, today: int, hour: nat, inRequest: bool,
                          logs: LogTable, now: int)
    returns (sent: Option<seq<string>>)
    modifies logs
    ensures var due := Due(ActiveMedications(meds, today), hour);
            if due != [] && !inRequest then sent.None? && logs.entries == old(logs.entries)
            else sent == Some(Texts(due)) && logs.entries == old(logs.entries) + Logs(userId, due, now)
  {
    var active := ActiveMedications(meds, today);
    var raised, reminders, pending := RemindersFor(userId, active, hour, inRequest, now);
    if raised {
      return None;
    }
    if reminders != [] {
      logs.entries := logs.entries + pending;
    }
    sent := Some(reminders);
  }

  /** The loop of `check_medications` over the active medications: the reminder texts and
      the logs added to the session, or `raised` at the first due medication when `flash`
      has no request context. */
  method RemindersFor(userId: int, active: seq<Medication>, hour: nat, inRequest: bool, now: int)
    returns (raised: bool, reminders: seq<string>, pending: seq<NotificationLog>)
    ensures raised <==> Due(active, hour) != [] && !inRequest
    ensures !raised ==> reminders == Texts(Due(active, hour)) && pending == Logs(userId, Due(active, hour), now)
  {
    pending := [];
    reminders := [];
    ghost var due: seq<Medication> := [];
    var i := 0;
    while i < |active|
      invariant 0 <= i <= |active|
      invariant due == Due(active[..i], hour)
      invariant reminders == Texts(due) && pending == Logs(userId, due, now)
      invariant !inRequest ==> due == []
    {
      var m := active[i];
      assert active[..i + 1][..i] == active[..i];
      if ShouldTake(m, hour) {
        var text := ReminderText(m);
        pending := pending + [ReminderLog(userId, m, now)];
        if !inRequest {
          DueGrows(active, i + 1, hour);
          return true, reminders, pending;
        }
        reminders := reminders + [text];
        ghost var before := due;
        due := due + [m];
        assert due[..|due| - 1] == before;
      }
      i := i + 1;
    }
    assert active[..|active|] == active;
    raised := false;
  }

  /** A medication found due in a prefix is still due in the whole list. */
  lemma {:induction false} DueGrows(meds: seq<Medication>, k: nat, hour: nat)
    requires k <= |meds| && Due(meds[..k], hour) != []
    ensures Due(meds, hour) != []
    decreases |meds| - k
  {
    if k < |meds| {
      assert meds[..k + 1][..k] == meds[..k];
      DueGrows(meds, k + 1, hour);
    } else {
      assert meds[..k] == meds;
    }
  }

  /** A medication is reminded of iff it is in the list and due at the hour. */
  lemma {:induction false} DueMembers(meds: seq<Medication>, hour: nat)
    ensures forall m :: m in Due(meds, hour) <==> m in meds && ShouldTake(m, hour)
    decreases |meds|
  {
    if meds != [] {
      DueMembers(meds[..|meds| - 1], hour);
      assert meds == meds[..|meds| - 1] + [meds[|meds| - 1]];
    }
  }

  /** Normalising twice changes nothing more. */
  lemma NormaliseIdempotent(f: string)
    ensures Normalise(Normalise(f)) == Normalise(f)
  {
  }

  /** Case and spacing do not matter: "Twice Daily" reads as "twice_daily". */
  lemma NormaliseExamples()
    ensures Normalise("Twice Daily") == "twice_daily"
    ensures Normalise("ONCE_DAILY") == "once_daily"
  {
  }

  /** "daily", the frequency the test data uses, is outside the table and never due. */
  lemma DailyNeverDue(m: Medication, hour: nat)
    requires m.frequency == "daily"
    ensures !ShouldTake(m, hour)
  {
    assert Normalise("daily") == "daily";
    assert "daily" !in Schedules;
  }

  /** Weekly and monthly medications are due at nine every day: the date is never consulted. */
  lemma WeeklyAndMonthlyDaily(m: Medication, hour: nat)
    requires Normalise(m.frequency) == "weekly" || Normalise(m.frequency) == "monthly"
    ensures ShouldTake(m, hour) <==> hour == 9
  {
  }

  /** The frequency is matched after normalising: "Twice Daily" is due at 9 and 21 only. */
  lemma ShouldTakeExamples(m: Medication)
    requires m.frequency == "Twice Daily"
    ensures ShouldTake(m, 9) && ShouldTake(m, 21)
    ensures !ShouldTake(m, 14)
  {
    NormaliseExamples();
  }

  /** Every due reminder falls on one of the table's hours. */
  lemma DueHours(m: Medication, hour: nat)
    requires ShouldTake(m, hour)
    ensures hour in {8, 9, 12, 14, 16, 20, 21}
  {
  }
}
