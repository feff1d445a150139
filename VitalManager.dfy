/** `VitalManager` (vital_manager.py): the in-memory device state — emergency contacts,
    a medication schedule of times of day, an SOS history — and the five-minute window
    that decides which scheduled medications are due. */
module VitalManager {
  import opened Common
  import opened Records
  import opened Clock

  /** The `EmergencyContact` dataclass of this module. */
  datatype LocalContact = LocalContact(name: string, phone: string, relationship: string)

  /** The `MedicationReminder` dataclass: a time of day parsed from "%H:%M". */
  datatype Reminder = Reminder(name: string, time: ClockTime, dosage: string, description: string)

  /** One entry of `alert_history`. */
  datatype HistoryEntry = HistoryEntry(kind: string, timestamp: int, status: string)

  /** Seconds in the due window on either side of the scheduled time. */
  const DueWindow: real := 300.0

  /** `abs(total_seconds) <= 300` for two times combined with the same date: the
      distance is taken within one day, so there is no wrap at midnight. */
  predicate IsDue(r: Reminder, now: real)
    ensures IsDue(r, now) <==> SecondOfDay(r.time) as real - DueWindow <= now <= SecondOfDay(r.time) as real + DueWindow
  {
    Abs(now - SecondOfDay(r.time) as real) <= DueWindow
  }

  /** The reminders of a schedule due at a time, in schedule order. */
  function DueReminders(schedule: seq<Reminder>, now: real): seq<Reminder>
  {
    if schedule == [] then []
    else DueReminders(schedule[..|schedule| - 1], now)
         + (if IsDue(schedule[|schedule| - 1], now) then [schedule[|schedule| - 1]] else [])
  }

  class Manager {
    var emergencyContacts: seq<LocalContact>
    var medicationSchedule: seq<Reminder>
    var alertHistory: seq<HistoryEntry>
    var isMonitoring: bool

    constructor ()
      ensures emergencyContacts == [] && medicationSchedule == [] && alertHistory == [] && !isMonitoring
    {
      emergencyContacts := [];
      medicationSchedule := [];
      alertHistory := [];
      isMonitoring := false;
    }

    /** `add_emergency_contact`: one contact appended at the end. */
    method AddEmergencyContact(name: string, phone: string, relationship: string)
      modifies this
      ensures emergencyContacts == old(emergencyContacts) + [LocalContact(name, phone, relationship)]
      ensures medicationSchedule == old(medicationSchedule) && alertHistory == old(alertHistory)
      ensures isMonitoring == old(isMonitoring)
    {
      emergencyContacts := emergencyContacts + [LocalContact(name, phone, relationship)];
    }

    /** `add_medication_reminder`: parses the time first; a text `strptime` refuses
        raises ValueError (`raised`) before anything is appended. */
    method AddMedicationReminder(name: string, timeText: string, dosage: string, description: string)
      returns (raised: bool)
      modifies this
      ensures raised <==> ParseClock(timeText).None?
      ensures !raised ==> medicationSchedule
                          == old(medicationSchedule) + [Reminder(name, ParseClock(timeText).value, dosage, description)]
      ensures raised ==> medicationSchedule == old(medicationSchedule)
      ensures emergencyContacts == old(emergencyContacts) && alertHistory == old(alertHistory)
      ensures isMonitoring == old(isMonitoring)
    {
      var parsed := ParseClock(timeText);
      if parsed.None? {
        return true;
      }
      medicationSchedule := medicationSchedule + [Reminder(name, parsed.value, dosage, description)];
      raised := false;
    }

    /** `trigger_sos()`: with no contacts it reports False and records nothing; otherwise
        one 'SOS' entry marked 'sent', however many contacts there are. */
    method TriggerSos(now: int) returns (ok: bool)
      modifies this
      ensures ok <==> old(emergencyContacts) != []
      ensures alertHistory == old(alertHistory) + (if ok then [HistoryEntry("SOS", now, "sent")] else [])
      ensures emergencyContacts == old(emergencyContacts) && medicationSchedule == old(medicationSchedule)
      ensures isMonitoring == old(isMonitoring)
    {
      if emergencyContacts == [] {
        return false;
      }
      alertHistory := alertHistory + [HistoryEntry("SOS", now, "sent")];
      ok := true;
    }

    /** `check_medication_reminders()` at `now`, the seconds since midnight of the local
        clock (fractions included). It only reads the schedule. */
    method CheckMedicationReminders(now: real) returns (due: seq<Reminder>)
      ensures due == DueReminders(medicationSchedule, now)
    {
      due := [];
      var i := 0;
      while i < |medicationSchedule|
        invariant 0 <= i <= |medicationSchedule|
        invariant due == DueReminders(medicationSchedule[..i], now)
      {
        var r := medicationSchedule[i];
        assert medicationSchedule[..i + 1][..i] == medicationSchedule[..i];
        var diff := now - SecondOfDay(r.time) as real;
        if Abs(diff) <= 300.0 {
          due := due + [r];
        }
        i := i + 1;
      }
      assert medicationSchedule[..|medicationSchedule|] == medicationSchedule;
    }
  }

  /** A reminder is returned iff it is scheduled and within five minutes of now. */
  lemma {:induction false} DueRemindersMembers(schedule: seq<Reminder>, now: real)
    ensures forall r :: r in DueReminders(schedule, now) <==> r in schedule && IsDue(r, now)
    decreases |schedule|
  {
    if schedule != [] {
      DueRemindersMembers(schedule[..|schedule| - 1], now);
      assert schedule == schedule[..|schedule| - 1] + [schedule[|schedule| - 1]];
    }
  }

  /** The window is inclusive at both ends: exactly five minutes early or late is due. */
  lemma WindowInclusive(r: Reminder)
    ensures IsDue(r, SecondOfDay(r.time) as real + 300.0)
    ensures IsDue(r, SecondOfDay(r.time) as real - 300.0)
    ensures !IsDue(r, SecondOfDay(r.time) as real + 300.5)
  {
  }

  /** No wrap at midnight: a reminder at 23:58 is not due at 00:01, three minutes later. */
  lemma NoMidnightWrap()
    ensures !IsDue(Reminder("m", ClockTime(23, 58), "d", ""), 60.0)
  {
  }

  /** A reminder added through the manager is due at its own time. */
  lemma AddedReminderDueAtItsTime(name: string, timeText: string, dosage: string, description: string)
    requires ParseClock(timeText).Some?
    ensures var r := Reminder(name, ParseClock(timeText).value, dosage, description);
            IsDue(r, SecondOfDay(r.time) as real)
  {
  }
}
