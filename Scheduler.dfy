/** `ReportScheduler` (scheduler.py): the `report_schedules` table behind the
    add, partial-update and delete operations. */
module Scheduler {
  import opened Common
  import opened Records

  class ReportScheduler {
    /** The rows by primary key. */
    var schedules: map<nat, ReportSchedule>
    /** The key the next insert takes. */
    var nextId: nat

    ghost predicate Valid()
      reads this
    {
      nextId >= 1 && forall id :: id in schedules ==> 1 <= id < nextId
    }

    constructor ()
      ensures Valid() && schedules == map[]
    {
      schedules := map[];
      nextId := 1;
    }

    /** `add_schedule(user_id, frequency, report_period)`: one new active row under a
        fresh key; the callers pass 'daily' and 30 when the form leaves them out. */
    method AddSchedule(userId: int, frequency: string, reportPeriod: int) returns (id: nat)
      requires Valid()
      modifies this
      ensures Valid()
      ensures id !in old(schedules)
      ensures schedules == old(schedules)[id := ReportSchedule(userId, frequency, reportPeriod, true)]
    {
      id := nextId;
      schedules := schedules[id := ReportSchedule(userId, frequency, reportPeriod, true)];
      nextId := nextId + 1;
    }

    /** `update_schedule(schedule_id, frequency, report_period, active)`: False for a
        missing key; otherwise each field given is applied — the frequency only when
        truthy, the period and the flag whenever they are not None. */
    method UpdateSchedule(id: nat, frequency: Option<string>, reportPeriod: Option<int>, active: Option<bool>)
      returns (found: bool)
      requires Valid()
      modifies this
      ensures Valid() && nextId == old(nextId)
      ensures found <==> id in old(schedules)
      ensures !found ==> schedules == old(schedules)
      ensures found ==> schedules == old(schedules)[id := Updated(old(schedules)[id], frequency, reportPeriod, active)]
    {
      if id !in schedules {
        return false;
      }
      var s := schedules[id];
      if Truthy(frequency) {
        s := s.(frequency := frequency.value);
      }
      if reportPeriod.Some? {
        s := s.(reportPeriod := reportPeriod.value);
      }
      if active.Some? {
        s := s.(active := active.value);
      }
      schedules := schedules[id := s];
      found := true;
    }

    /** `delete_schedule(schedule_id)`: True and the row gone when it exists, else False. */
    method DeleteSchedule(id: nat) returns (found: bool)
      requires Valid()
      modifies this
      ensures Valid() && nextId == old(nextId)
      ensures found <==> id in old(schedules)
      ensures schedules == old(schedules) - {id}
    {
      if id !in schedules {
        return false;
      }
      schedules := schedules - {id};
      found := true;
    }
  }

  /** The row after an update: each field takes the new value when one is applied. */
  function Updated(s: ReportSchedule, frequency: Option<string>, reportPeriod: Option<int>, active: Option<bool>)
    : (r: ReportSchedule)
    ensures r.userId == s.userId
    ensures r.frequency == if Truthy(frequency) then frequency.value else s.frequency
    ensures r.reportPeriod == if reportPeriod.Some? then reportPeriod.value else s.reportPeriod
    ensures r.active == if active.Some? then active.value else s.active
  {
    ReportSchedule(s.userId,
                   if Truthy(frequency) then frequency.value else s.frequency,
                   if reportPeriod.Some? then reportPeriod.value else s.reportPeriod,
                   if active.Some? then active.value else s.active)
  }

  /** An empty frequency leaves the old one, while a period of 0 and `active=False` are applied. */
  lemma FalsyArguments(s: ReportSchedule)
    ensures Updated(s, Some(""), Some(0), Some(false)) == s.(reportPeriod := 0, active := false)
  {
  }

  /** An update with no arguments rewrites the row unchanged. */
  lemma EmptyUpdateIsIdentity(s: ReportSchedule)
    ensures Updated(s, None, None, None) == s
  {
  }

  /** Updating twice with the same arguments is the same as once. */
  lemma UpdateIdempotent(s: ReportSchedule, frequency: Option<string>, reportPeriod: Option<int>, active: Option<bool>)
    ensures Updated(Updated(s, frequency, reportPeriod, active), frequency, reportPeriod, active)
            == Updated(s, frequency, reportPeriod, active)
  {
  }

  /** Deleting the same key twice: the second call finds nothing and changes nothing. */
  method DeleteTwice(s: ReportScheduler, id: nat) returns (first: bool, second: bool)
    requires s.Valid()
    modifies s
    ensures s.Valid()
    ensures first <==> id in old(s.schedules)
    ensures !second
    ensures s.schedules == old(s.schedules) - {id}
  {
    first := s.DeleteSchedule(id);
    ghost var afterFirst := s.schedules;
    second := s.DeleteSchedule(id);
    assert s.schedules == afterFirst - {id} == afterFirst;
  }
}
