/** `VitalSignsAnalyzer` (vital_analyzer.py): the per-reading range check, trend
    detection over the stored history, the four prediction rules and the overall
    status. The IsolationForest verdict enters as a boolean. */
module VitalAnalyzer {
  import opened Common
  import opened Records
  import opened Stats

  /* ---------- The range table and the range check ---------- */

  datatype Range = Range(min: real, max: real)

  /** `self.ranges`, fixed at construction and never changed. */
  function NormalRange(v: Vital): (r: Range)
    ensures r.min < r.max
  {
    match v
    case HeartRate => Range(60.0, 100.0)
    case Systolic => Range(90.0, 140.0)
    case Diastolic => Range(60.0, 90.0)
    case Temperature => Range(36.1, 37.2)
    case OxygenSaturation => Range(95.0, 100.0)
  }

  /** The closed interval of normal values. */
  predicate Within(x: real, r: Range)
  {
    r.min <= x <= r.max
  }

  /** The range-table entry named by an attribute name, if any. */
  function VitalNamed(name: string): (r: Option<Vital>)
    ensures r.Some? ==> Key(r.value) == name
    ensures r.None? ==> forall v: Vital :: Key(v) != name
  {
    if name == "heart_rate" then Some(HeartRate)
    else if name == "blood_pressure_systolic" then Some(Systolic)
    else if name == "blood_pressure_diastolic" then Some(Diastolic)
    else if name == "temperature" then Some(Temperature)
    else if name == "oxygen_saturation" then Some(OxygenSaturation)
    else None
  }

  /** A value of the record handed to the check: `isinstance(value, (int, float))`
      holds only for `Number`. */
  datatype AttrValue = Number(x: real) | NoneValue | NonNumeric

  /** One entry of `vars(vitals)`; its names are distinct. */
  datatype Attr = Attr(name: string, value: AttrValue)

  ghost predicate DistinctNames(attrs: seq<Attr>)
  {
    forall i, j :: 0 <= i < j < |attrs| ==> attrs[i].name != attrs[j].name
  }

  datatype Side = Low | High

  datatype RangeAlert = RangeAlert(side: Side, vital: Vital, value: real)
  {
    /** `f"Low {vital.replace('_', ' ')}: {value}"`, with `show` standing for `str(float)`. */
    function Text(show: real -> string): string
    {
      (if side == Low then "Low " else "High ") + Label(vital) + ": " + show(value)
    }
  }

  /** The alert one attribute raises: below `min` is Low, above `max` is High, and a
      value equal to either bound raises nothing. */
  function AttrAlert(a: Attr): (r: Option<RangeAlert>)
    ensures r.Some? <==> VitalNamed(a.name).Some? && a.value.Number?
                         && !Within(a.value.x, NormalRange(VitalNamed(a.name).value))
    ensures r.Some? ==> Key(r.value.vital) == a.name && r.value.value == a.value.x
                        && (r.value.side == Low <==> a.value.x < NormalRange(r.value.vital).min)
                        && (r.value.side == High <==> a.value.x > NormalRange(r.value.vital).max)
  {
    match VitalNamed(a.name)
    case None => None
    case Some(v) =>
      if !a.value.Number? then None
      else if a.value.x < NormalRange(v).min then Some(RangeAlert(Low, v, a.value.x))
      else if a.value.x > NormalRange(v).max then Some(RangeAlert(High, v, a.value.x))
      else None
  }

  function AsSeq<T>(o: Option<T>): seq<T>
  {
    if o.Some? then [o.value] else []
  }

  /** The alerts of `_check_vital_ranges`, in attribute order. */
  function RangeAlerts(attrs: seq<Attr>): (r: seq<RangeAlert>)
    ensures |r| <= |attrs|
  {
    if attrs == [] then []
    else RangeAlerts(attrs[..|attrs| - 1]) + AsSeq(AttrAlert(attrs[|attrs| - 1]))
  }

  /** `_check_vital_ranges`: walks the attributes, appending one alert per
      out-of-range vital. */
  method CheckVitalRanges(attrs: seq<Attr>) returns (alerts: seq<RangeAlert>)
    ensures alerts == RangeAlerts(attrs)
  {
    alerts := [];
    var i := 0;
    while i < |attrs|
      invariant 0 <= i <= |attrs|
      invariant alerts == RangeAlerts(attrs[..i])
    {
      assert attrs[..i + 1][..i] == attrs[..i];
      var alert := AttrAlert(attrs[i]);
      if alert.Some? {
        alerts := alerts + [alert.value];
      }
      i := i + 1;
    }
    assert attrs[..|attrs|] == attrs;
  }

  /** Some attribute of the list raises exactly this alert. */
  ghost predicate RaisedBy(attrs: seq<Attr>, alert: RangeAlert)
  {
    exists i :: 0 <= i < |attrs| && AttrAlert(attrs[i]) == Some(alert)
  }

  /** Every alert comes from one attribute, and every out-of-range attribute gives its alert. */
  lemma {:induction false} RangeAlertsExact(attrs: seq<Attr>)
    ensures forall alert :: alert in RangeAlerts(attrs) ==> RaisedBy(attrs, alert)
    ensures forall i :: 0 <= i < |attrs| && AttrAlert(attrs[i]).Some? ==>
              AttrAlert(attrs[i]).value in RangeAlerts(attrs)
    decreases |attrs|
  {
    if attrs != [] {
      var init := attrs[..|attrs| - 1];
      RangeAlertsExact(init);
      assert RangeAlerts(attrs) == RangeAlerts(init) + AsSeq(AttrAlert(attrs[|attrs| - 1]));
      forall alert | alert in RangeAlerts(attrs)
        ensures RaisedBy(attrs, alert)
      {
        if alert in RangeAlerts(init) {
          var i :| 0 <= i < |init| && AttrAlert(init[i]) == Some(alert);
          assert attrs[i] == init[i];
        } else {
          assert AttrAlert(attrs[|attrs| - 1]) == Some(alert);
        }
      }
      forall i | 0 <= i < |attrs| && AttrAlert(attrs[i]).Some?
        ensures AttrAlert(attrs[i]).value in RangeAlerts(attrs)
      {
        if i < |attrs| - 1 {
          assert attrs[i] == init[i];
        }
      }
    }
  }

  /** With distinct attribute names (a `vars` dict), no vital is reported twice. */
  lemma {:induction false} RangeAlertsOnePerVital(attrs: seq<Attr>)
    requires DistinctNames(attrs)
    ensures forall k, l :: 0 <= k < l < |RangeAlerts(attrs)| ==>
              RangeAlerts(attrs)[k].vital != RangeAlerts(attrs)[l].vital
    decreases |attrs|
  {
    if attrs != [] {
      var init := attrs[..|attrs| - 1];
      var last := attrs[|attrs| - 1];
      RangeAlertsOnePerVital(init);
      RangeAlertsExact(init);
      if AttrAlert(last).Some? {
        forall k | 0 <= k < |RangeAlerts(init)|
          ensures RangeAlerts(init)[k].vital != AttrAlert(last).value.vital
        {
          assert RaisedBy(init, RangeAlerts(init)[k]);
          var i :| 0 <= i < |init| && AttrAlert(init[i]) == Some(RangeAlerts(init)[k]);
          assert init[i] == attrs[i];
        }
      }
    }
  }

  /* ---------- The stored history and its columns ---------- */

  const HistoryLimit: nat := 100

  /** `VitalSigns.query.filter_by(user_id=...).order_by(timestamp.desc()).limit(100)`,
      given the user's rows oldest first: the newest 100, newest first. */
  function HistoryOf(stored: seq<Sample>): (r: seq<Sample>)
    ensures |r| == Min(HistoryLimit, |stored|)
  {
    Reverse(LastN(stored, HistoryLimit))
  }

  /** The dict of lists `_prepare_data` builds. */
  datatype Columns = Columns(heartRate: seq<real>, systolic: seq<real>, diastolic: seq<real>,
                             temperature: seq<real>, oxygenSaturation: seq<real>, timestamps: seq<int>)
  {
    function Of(v: Vital): seq<real>
    {
      match v
      case HeartRate => heartRate
      case Systolic => systolic
      case Diastolic => diastolic
      case Temperature => temperature
      case OxygenSaturation => oxygenSaturation
    }
  }

  function ColumnsOf(rows: seq<Sample>): Columns
  {
    Columns(ColumnOf(rows, HeartRate), ColumnOf(rows, Systolic), ColumnOf(rows, Diastolic),
            ColumnOf(rows, Temperature), ColumnOf(rows, OxygenSaturation), TimestampsOf(rows))
  }

  /** `_prepare_data`: one pass over the records, appending each value to its column. */
  method PrepareData(history: seq<Sample>) returns (data: Columns)
    ensures data == ColumnsOf(history)
    ensures forall v :: |data.Of(v)| == |history|
    ensures forall v, i :: 0 <= i < |history| ==> data.Of(v)[i] == history[i].Get(v)
    ensures data.timestamps == TimestampsOf(history)
  {
    data := Columns([], [], [], [], [], []);
    var i := 0;
    while i < |history|
      invariant 0 <= i <= |history|
      invariant data == ColumnsOf(history[..i])
    {
      var r := history[i];
      data := Columns(data.heartRate + [r.heartRate], data.systolic + [r.systolic],
                      data.diastolic + [r.diastolic], data.temperature + [r.temperature],
                      data.oxygenSaturation + [r.oxygenSaturation], data.timestamps + [r.timestamp]);
      i := i + 1;
      assert history[..i] == history[..i - 1] + [r];
    }
    assert history[..|history|] == history;
  }

  /* ---------- Trends ---------- */

  datatype Direction = Increasing | Decreasing

  datatype Trend = Trend(vital: Vital, direction: Direction)
  {
    /** `f"{vital.replace('_', ' ')} is {direction}"`. */
    function Text(): string
    {
      Label(vital) + " is " + (if direction == Increasing then "increasing" else "decreasing")
    }
  }

  /** The trend one column shows: more than 10 values and a slope steeper than 0.1. */
  function TrendOf(v: Vital, values: seq<real>): Option<Trend>
  {
    if |values| > 10 && Abs(Slope(values)) > 0.1 then
      Some(Trend(v, if Slope(values) > 0.0 then Increasing else Decreasing))
    else None
  }

  function TrendsOver(data: Columns, vs: seq<Vital>): seq<Trend>
  {
    if vs == [] then []
    else TrendsOver(data, vs[..|vs| - 1]) + AsSeq(TrendOf(vs[|vs| - 1], data.Of(vs[|vs| - 1])))
  }

  /** The trends of `_analyze_trends`, in column order. */
  function Trends(data: Columns): seq<Trend>
  {
    TrendsOver(data, Vitals)
  }

  /** `_analyze_trends`: one pass over the five columns. */
  method AnalyzeTrends(data: Columns) returns (trends: seq<Trend>)
    ensures trends == Trends(data)
  {
    trends := [];
    var i := 0;
    while i < |Vitals|
      invariant 0 <= i <= |Vitals|
      invariant trends == TrendsOver(data, Vitals[..i])
    {
      var v := Vitals[i];
      assert Vitals[..i + 1][..i] == Vitals[..i];
      var values := data.Of(v);
      if |values| > 10 {
        var slope := Slope(values);
        if Abs(slope) > 0.1 {
          trends := trends + [Trend(v, if slope > 0.0 then Increasing else Decreasing)];
        }
      }
      i := i + 1;
    }
    assert Vitals[..|Vitals|] == Vitals;
  }

  lemma {:induction false} TrendsOverMembers(data: Columns, vs: seq<Vital>, t: Trend)
    ensures t in TrendsOver(data, vs) <==> t.vital in vs && TrendOf(t.vital, data.Of(t.vital)) == Some(t)
    decreases |vs|
  {
    if vs != [] {
      TrendsOverMembers(data, vs[..|vs| - 1], t);
      var last := vs[|vs| - 1];
      assert vs == vs[..|vs| - 1] + [last];
      if TrendOf(last, data.Of(last)).Some? {
        assert TrendOf(last, data.Of(last)).value.vital == last;
      }
    }
  }

  /** A vital is reported iff its column has more than 10 values and |slope| > 0.1,
      and the direction is Increasing iff the slope is positive. */
  lemma TrendReported(data: Columns, v: Vital, d: Direction)
    ensures Trend(v, d) in Trends(data) <==>
              |data.Of(v)| > 10 && Abs(Slope(data.Of(v))) > 0.1 && (d == Increasing <==> Slope(data.Of(v)) > 0.0)
  {
    TrendsOverMembers(data, Vitals, Trend(v, d));
  }

  /** The history is newest first, so the slope is taken against time: a vital that
      rises over the window is reported as decreasing, and one that falls as increasing. */
  lemma TrendAgainstTime(stored: seq<Sample>, v: Vital)
    requires |LastN(stored, HistoryLimit)| > 10
    ensures Trend(v, Decreasing) in Trends(ColumnsOf(HistoryOf(stored)))
            <==> Slope(ColumnOf(LastN(stored, HistoryLimit), v)) > 0.1
    ensures Trend(v, Increasing) in Trends(ColumnsOf(HistoryOf(stored)))
            <==> Slope(ColumnOf(LastN(stored, HistoryLimit), v)) < -0.1
  {
    var window := LastN(stored, HistoryLimit);
    var chrono := ColumnOf(window, v);
    var data := ColumnsOf(HistoryOf(stored));
    assert data.Of(v) == Reverse(chrono);
    SlopeReverse(chrono);
    TrendReported(data, v, Decreasing);
    TrendReported(data, v, Increasing);
  }

  /* ---------- Predictions ---------- */

  datatype Prediction = Hypertension | Fever | LowOxygen | IrregularHeartRate
  {
    function Text(): string
    {
      match this
      case Hypertension => "Potential hypertension detected"
      case Fever => "Elevated temperature pattern detected"
      case LowOxygen => "Declining oxygen saturation trend"
      case IrregularHeartRate => "Irregular heart rate pattern detected"
    }

    /** Position in the order the rules run. */
    function Rank(): nat
    {
      match this
      case Hypertension => 0
      case Fever => 1
      case LowOxygen => 2
      case IrregularHeartRate => 3
    }
  }

  predicate HasRows(data: Columns)
  {
    forall v :: |data.Of(v)| > 0
  }

  /** `_make_predictions`: four threshold rules, run in order. A standard deviation
      above 15 is a variance above 225. The trends argument is unused. */
  function Predictions(data: Columns): (r: seq<Prediction>)
    requires HasRows(data)
    ensures Hypertension in r <==> Mean(data.systolic) > 130.0 || Mean(data.diastolic) > 80.0
    ensures Fever in r <==> Mean(LastN(data.temperature, 5)) > 37.2
    ensures LowOxygen in r <==> Mean(LastN(data.oxygenSaturation, 5)) < 95.0
    ensures IrregularHeartRate in r <==> Variance(LastN(data.heartRate, 10)) > 225.0
    ensures forall i, j :: 0 <= i < j < |r| ==> r[i].Rank() < r[j].Rank()
  {
    assert |data.Of(Systolic)| > 0 && |data.Of(Diastolic)| > 0 && |data.Of(Temperature)| > 0;
    assert |data.Of(OxygenSaturation)| > 0 && |data.Of(HeartRate)| > 0;
    (if Mean(data.systolic) > 130.0 || Mean(data.diastolic) > 80.0 then [Hypertension] else [])
    + (if Mean(LastN(data.temperature, 5)) > 37.2 then [Fever] else [])
    + (if Mean(LastN(data.oxygenSaturation, 5)) < 95.0 then [LowOxygen] else [])
    + (if Variance(LastN(data.heartRate, 10)) > 225.0 then [IrregularHeartRate] else [])
  }

  /** `[-5:]` of a newest-first column takes the five OLDEST readings of the history,
      oldest last. */
  lemma TailIsOldest(stored: seq<Sample>, v: Vital, k: nat)
    requires k <= |LastN(stored, HistoryLimit)|
    ensures LastN(ColumnsOf(HistoryOf(stored)).Of(v), k) == Reverse(ColumnOf(LastN(stored, HistoryLimit)[..k], v))
  {
    var window := LastN(stored, HistoryLimit);
    var col := ColumnsOf(HistoryOf(stored)).Of(v);
    assert col == Reverse(ColumnOf(window, v));
    var n := |window|;
    assert |LastN(col, k)| == k;
    forall i | 0 <= i < k
      ensures LastN(col, k)[i] == Reverse(ColumnOf(window[..k], v))[i]
    {
      assert LastN(col, k)[i] == col[n - k + i] == window[k - 1 - i].Get(v);
    }
  }

  /* ---------- The whole analysis ---------- */

  datatype Status = NormalStatus | AlertStatus

  /** The dict `analyze_vitals` returns; `anomalies` and `trends` are absent (None)
      in the early return for an empty history. */
  datatype Analysis = Analysis(status: Status, alerts: seq<RangeAlert>, anomalies: Option<seq<string>>,
                               trends: Option<seq<Trend>>, predictions: seq<Prediction>)

  const AnomalyText := "Unusual vital signs pattern detected"

  /** `_detect_anomalies`, given the outlier model's verdict on the LAST row of the
      feature matrix, which is the oldest reading of the history. */
  function AnomaliesOf(lastRowFlagged: bool): seq<string>
  {
    if lastRowFlagged then [AnomalyText] else []
  }

  /** What `analyze_vitals` returns for a history, the record to check (if any) and
      the outlier verdict. */
  function AnalysisOf(history: seq<Sample>, current: Option<seq<Attr>>, lastRowFlagged: bool): Analysis
  {
    if history == [] then Analysis(NormalStatus, [], None, None, [])
    else
      var data := ColumnsOf(history);
      var alerts := if current.Some? then RangeAlerts(current.value) else [];
      var anomalies := AnomaliesOf(lastRowFlagged);
      Analysis(if alerts != [] || anomalies != [] then AlertStatus else NormalStatus,
               alerts, Some(anomalies), Some(Trends(data)), Predictions(data))
  }

  /** `analyze_vitals`: query the history, then run the steps in order. */
  method AnalyzeVitals(stored: seq<Sample>, current: Option<seq<Attr>>, lastRowFlagged: bool)
    returns (r: Analysis)
    ensures r == AnalysisOf(HistoryOf(stored), current, lastRowFlagged)
  {
    var history := HistoryOf(stored);
    if history == [] {
      return Analysis(NormalStatus, [], None, None, []);
    }
    var data := PrepareData(history);
    var alerts := [];
    if current.Some? {
      alerts := CheckVitalRanges(current.value);
    }
    var anomalies := AnomaliesOf(lastRowFlagged);
    var trends := AnalyzeTrends(data);
    assert HasRows(data);
    var predictions := Predictions(data);
    r := Analysis(if alerts != [] || anomalies != [] then AlertStatus else NormalStatus,
                  alerts, Some(anomalies), Some(trends), predictions);
  }

  /** The status is 'alert' iff there is history and a range alert or an anomaly;
      with no history it is 'normal' with nothing reported, whatever the current record holds. */
  lemma StatusAlertIff(history: seq<Sample>, current: Option<seq<Attr>>, lastRowFlagged: bool)
    ensures AnalysisOf(history, current, lastRowFlagged).status == AlertStatus
            <==> history != [] && ((current.Some? && RangeAlerts(current.value) != []) || lastRowFlagged)
    ensures history == [] ==> AnalysisOf(history, current, lastRowFlagged)
                              == Analysis(NormalStatus, [], None, None, [])
  {
  }

  /** One out-of-range vital in the current record is enough for the status 'alert'
      once any history exists. */
  lemma OutOfRangeRaisesStatus(history: seq<Sample>, attrs: seq<Attr>, i: nat, lastRowFlagged: bool)
    requires history != [] && i < |attrs|
    requires VitalNamed(attrs[i].name).Some? && attrs[i].value.Number?
    requires !Within(attrs[i].value.x, NormalRange(VitalNamed(attrs[i].name).value))
    ensures AnalysisOf(history, Some(attrs), lastRowFlagged).status == AlertStatus
  {
    RangeAlertsExact(attrs);
    assert AttrAlert(attrs[i]).value in RangeAlerts(attrs);
  }
}
