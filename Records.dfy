/** The record shapes of models.py that the rule layer reads and writes. Times are
    whole seconds since an epoch, dates are day numbers. */
module Records {
  import opened Common

  /** The five vital-sign columns, in the order every module lists them. */
  datatype Vital = HeartRate | Systolic | Diastolic | Temperature | OxygenSaturation

  const Vitals: seq<Vital> := [HeartRate, Systolic, Diastolic, Temperature, OxygenSaturation]

  /** The column name of a vital. */
  function Key(v: Vital): string
  {
    match v
    case HeartRate => "heart_rate"
    case Systolic => "blood_pressure_systolic"
    case Diastolic => "blood_pressure_diastolic"
    case Temperature => "temperature"
    case OxygenSaturation => "oxygen_saturation"
  }

  /** `key.replace('_', ' ')`, the form every message shows. */
  function Label(v: Vital): (r: string)
    ensures '_' !in r
  {
    Replace(Key(v), '_', ' ')
  }

  /** One `VitalSigns` row. The columns are nullable in the schema; the model keeps
      rows whose five values are present. */
  datatype Sample = Sample(timestamp: int, heartRate: real, systolic: real, diastolic: real,
                           temperature: real, oxygenSaturation: real)
  {
    function Get(v: Vital): real
    {
      match v
      case HeartRate => heartRate
      case Systolic => systolic
      case Diastolic => diastolic
      case Temperature => temperature
      case OxygenSaturation => oxygenSaturation
    }
  }

  /** Rows in the order `order_by(timestamp.asc())` returns them. */
  ghost predicate Ascending(rows: seq<Sample>)
  {
    forall i, j :: 0 <= i < j < |rows| ==> rows[i].timestamp <= rows[j].timestamp
  }

  /** One value column of a run of rows, in row order. */
  function ColumnOf(rows: seq<Sample>, v: Vital): (r: seq<real>)
    ensures |r| == |rows|
  {
    seq(|rows|, i requires 0 <= i < |rows| => rows[i].Get(v))
  }

  function TimestampsOf(rows: seq<Sample>): (r: seq<int>)
    ensures |r| == |rows|
  {
    seq(|rows|, i requires 0 <= i < |rows| => rows[i].timestamp)
  }

  /** An `EmergencyContact` row; `phone` is NOT NULL but may be empty. */
  datatype Contact = Contact(name: string, phone: string, email: Option<string>)

  /** A `User` row with the relationship `emergency_contacts`. `fullName` stands for an
      attribute `full_name`: models.py declares none, so it is None for every stored user,
      and reading it raises AttributeError. */
  datatype User = User(id: int, email: string, phone: Option<string>,
                       firstName: Option<string>, lastName: Option<string>,
                       fullName: Option<string>, contacts: seq<Contact>)

  /** An `Alert` row. */
  datatype Alert = Alert(id: nat, userId: int, timestamp: int, kind: string, message: string,
                         vitalSign: Option<string>, value: Option<real>,
                         acknowledged: bool, acknowledgedAt: Option<int>)

  /** The keyword arguments the `Alert` model accepts: its declared columns. */
  const AlertColumns: set<string> :=
    {"id", "user_id", "timestamp", "type", "message", "vital_sign", "value", "acknowledged", "acknowledged_at"}

  /** A `NotificationLog` row; `channels` is free text. */
  datatype NotificationLog = NotificationLog(userId: int, kind: string, severity: string,
                                             message: string, channels: string, timestamp: int)

  /** A time of day as `datetime.time` holds it after parsing "%H:%M". */
  datatype ClockTime = ClockTime(hour: nat, minute: nat)

  /** A `NotificationPreference` row. */
  datatype Prefs = Prefs(emailEnabled: bool, smsEnabled: bool,
                         quietStart: Option<ClockTime>, quietEnd: Option<ClockTime>)

  /** The row `NotificationPreference(user_id=...)` holds once committed: both
      channels enabled, no quiet hours. */
  const DefaultPrefs: Prefs := Prefs(true, true, None, None)

  /** A `Medication` row. */
  datatype Medication = Medication(name: string, dosage: string, frequency: string,
                                   startDate: int, endDate: Option<int>)
  {
    /** The query filter `start_date <= day and (end_date is None or end_date >= day)`. */
    predicate ActiveOn(day: int)
    {
      startDate <= day && (endDate.None? || endDate.value >= day)
    }
  }

  /** The medications of a list that are active on a day, in list order. */
  function ActiveMedications(meds: seq<Medication>, day: int): (r: seq<Medication>)
    ensures forall m :: m in r <==> m in meds && m.ActiveOn(day)
    ensures |r| <= |meds|
  {
    if meds == [] then []
    else (if meds[0].ActiveOn(day) then [meds[0]] else []) + ActiveMedications(meds[1..], day)
  }

  /** A `ReportSchedule` row. */
  datatype ReportSchedule = ReportSchedule(userId: int, frequency: string, reportPeriod: int, active: bool)
}
