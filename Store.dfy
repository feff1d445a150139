/** The tables the rule layer writes in place: alerts, notification logs and
    notification preferences. Session bookkeeping (add, commit, rollback) is folded
    into the methods that change a table: a row in a table is a committed row. */
module Store {
  import opened Common
  import opened Records

  /** The `alerts` table. Ids are the autoincrement keys, 1, 2, 3, ... in insertion
      order; the core never deletes an alert. */
  class AlertTable {
    var alerts: seq<Alert>

    ghost predicate Valid()
      reads this
    {
      forall i :: 0 <= i < |alerts| ==> alerts[i].id == i + 1
    }

    constructor ()
      ensures Valid() && alerts == []
    {
      alerts := [];
    }

    /** Position of the alert with a given id, as `Alert.query.get(id)` finds it. */
    function IndexOf(id: int): (r: Option<nat>)
      reads this
      requires Valid()
      ensures r.Some? ==> r.value < |alerts| && alerts[r.value].id == id
      ensures r.None? ==> forall i :: 0 <= i < |alerts| ==> alerts[i].id != id
    {
      if 1 <= id <= |alerts| then Some(id - 1) else None
    }

    /** Inserts `Alert(user_id, type, message, timestamp)`; the unset columns take
        their defaults: no vital sign, no value, not acknowledged. */
    method Add(userId: int, kind: string, message: string, timestamp: int) returns (id: nat)
      requires Valid()
      modifies this
      ensures Valid()
      ensures id == |old(alerts)| + 1
      ensures alerts == old(alerts) + [NewAlert(id, userId, kind, message, timestamp)]
    {
      id := |alerts| + 1;
      alerts := alerts + [NewAlert(id, userId, kind, message, timestamp)];
    }

    /** Replaces the row at a position (an UPDATE of an existing alert). */
    method Put(i: nat, a: Alert)
      requires Valid() && i < |alerts| && a.id == alerts[i].id
      modifies this
      ensures Valid()
      ensures alerts == old(alerts)[i := a]
    {
      alerts := alerts[i := a];
    }
  }

  function NewAlert(id: nat, userId: int, kind: string, message: string, timestamp: int): Alert
  {
    Alert(id, userId, timestamp, kind, message, None, None, false, None)
  }

  /** The `notification_logs` table. */
  class LogTable {
    var entries: seq<NotificationLog>

    constructor ()
      ensures entries == []
    {
      entries := [];
    }

    method Add(log: NotificationLog)
      modifies this
      ensures entries == old(entries) + [log]
    {
      entries := entries + [log];
    }
  }

  /** The `notification_preferences` table, one row per user. */
  class PreferenceTable {
    var rows: map<int, Prefs>

    constructor ()
      ensures rows == map[]
    {
      rows := map[];
    }

    /** `query.filter_by(user_id=...).first()`, creating and committing the default
        row when there is none. */
    method Load(userId: int) returns (p: Prefs)
      modifies this
      ensures userId in old(rows) ==> p == old(rows)[userId] && rows == old(rows)
      ensures userId !in old(rows) ==> p == DefaultPrefs && rows == old(rows)[userId := DefaultPrefs]
    {
      if userId in rows {
        p := rows[userId];
      } else {
        p := DefaultPrefs;
        rows := rows[userId := p];
      }
    }

    method Put(userId: int, p: Prefs)
      modifies this
      ensures rows == old(rows)[userId := p]
    {
      rows := rows[userId := p];
    }
  }
}
