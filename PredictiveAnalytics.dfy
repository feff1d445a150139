/** `HealthPredictor` (predictive_analytics.py): the window of recent readings, the
    outlier report on the last three flagged rows, the hour-by-hour forecast, the
    insights built from both and the alerts saved from them. The IsolationForest
    labels, the fitted forecasting model, the engineered feature row and the square
    root enter as parameters. */
module PredictiveAnalytics {
  import opened Common
  import opened Records
  import opened Stats
  import opened Store

  /** Fewer readings than this and both analyses return empty. */
  const MinReadings: nat := 10
  /** The look-back both analyses use when `generate_health_insights` calls them. */
  const LookbackHours: nat := 24
  /** The forecast length `generate_health_insights` asks for. */
  const ForecastHours: nat := 4
  /** How many of the flagged rows are examined: the last ones. */
  const ExaminedRows: nat := 3

  /* ---------- The window ---------- */

  /** The readings with `timestamp >= since`, in the stored (ascending) order. */
  function Window(stored: seq<Sample>, since: int): seq<Sample>
  {
    if stored == [] then []
    else (if stored[0].timestamp >= since then [stored[0]] else []) + Window(stored[1..], since)
  }

  /** The window holds exactly the readings taken at or after `since`. */
  lemma {:induction false} WindowMembers(stored: seq<Sample>, since: int)
    ensures forall x :: x in Window(stored, since) <==> x in stored && x.timestamp >= since
    decreases |stored|
  {
    if stored != [] {
      WindowMembers(stored[1..], since);
      assert stored == [stored[0]] + stored[1..];
    }
  }

  /** The window keeps the stored order, so a time-ordered history gives a time-ordered
      window. */
  lemma {:induction false} WindowAscending(stored: seq<Sample>, since: int)
    requires Ascending(stored)
    ensures Ascending(Window(stored, since))
    decreases |stored|
  {
    if stored != [] {
      var rest := Window(stored[1..], since);
      WindowAscending(stored[1..], since);
      WindowMembers(stored[1..], since);
      if stored[0].timestamp >= since {
        var w := Window(stored, since);
        assert w == [stored[0]] + rest;
        forall j | 0 < j < |w|
          ensures stored[0].timestamp <= w[j].timestamp
        {
          assert w[j] == rest[j - 1];
          assert rest[j - 1] in stored[1..];
        }
      }
    }
  }

  /** `utcnow() - timedelta(hours=hours)`, in seconds. */
  function Since(now: int, hours: nat): int
  {
    now - hours * 3600
  }

  /* ---------- Outliers ---------- */

  /** `np.where(labels == -1)[0]`: the positions the outlier model flags, ascending. */
  function FlaggedIndices(flags: seq<bool>): (r: seq<nat>)
    ensures forall k :: 0 <= k < |r| ==> r[k] < |flags| && flags[r[k]]
    ensures forall i :: 0 <= i < |flags| && flags[i] ==> i in r
    ensures forall k, l :: 0 <= k < l < |r| ==> r[k] < r[l]
  {
    if flags == [] then []
    else
      var n := |flags| - 1;
      var init := FlaggedIndices(flags[..n]);
      assert forall k :: 0 <= k < |init| ==> init[k] < n && flags[init[k]] == flags[..n][init[k]];
      assert forall i :: 0 <= i < n && flags[i] ==> flags[..n][i];
      init + (if flags[n] then [n] else [])
  }

  /** `anomaly_indices[-3:]`: the last three flagged positions, ascending. Every
      flagged position left out comes before all of the examined ones. */
  function Examined(flags: seq<bool>): (r: seq<nat>)
    ensures |r| == Min(ExaminedRows, |FlaggedIndices(flags)|)
    ensures forall k :: 0 <= k < |r| ==> r[k] < |flags| && flags[r[k]]
    ensures forall k, l :: 0 <= k < l < |r| ==> r[k] < r[l]
    ensures forall i, k :: 0 <= i < |flags| && flags[i] && i !in r && 0 <= k < |r| ==> i < r[k]
  {
    var all := FlaggedIndices(flags);
    LastNOfAscending(all, ExaminedRows);
    LastN(all, ExaminedRows)
  }

  /** The tail of an ascending sequence is ascending, and whatever it leaves out is
      smaller than everything it keeps. */
  lemma LastNOfAscending(s: seq<nat>, m: nat)
    requires forall k, l :: 0 <= k < l < |s| ==> s[k] < s[l]
    ensures var r := LastN(s, m);
      && (forall k :: 0 <= k < |r| ==> r[k] in s)
      && (forall k, l :: 0 <= k < l < |r| ==> r[k] < r[l])
      && (forall i, k :: i in s && i !in r && 0 <= k < |r| ==> i < r[k])
  {
    var start := |s| - Min(m, |s|);
    var r := LastN(s, m);
    assert forall k :: 0 <= k < |r| ==> r[k] == s[start + k];
    forall i, k | i in s && i !in r && 0 <= k < |r|
      ensures i < r[k]
    {
      var j :| 0 <= j < |s| && s[j] == i;
      assert s[j] < s[start + k];
    }
  }

  /** One reported value; `std` is what `df[vital].std()` returned. */
  datatype Anomaly = Anomaly(timestamp: int, vital: Vital, value: real, mean: real, std: real)
  {
    /** `f'{mean - std:.1f} - {mean + std:.1f}'`: one standard deviation each side. */
    function ExpectedRange(): (r: string)
      ensures '_' !in r
    {
      var low := Fixed1(mean - std) + " - ";
      assert '_' !in low;
      low + Fixed1(mean + std)
    }
  }

  /** The check on one value of one examined row: more than two sample standard
      deviations from the column mean. `sqrt` stands for the square root pandas takes. */
  function VitalAnomaly(window: seq<Sample>, i: nat, v: Vital, sqrt: real -> real): (r: Option<Anomaly>)
    requires i < |window| && |window| >= 2
    ensures r.Some? ==> r.value.timestamp == window[i].timestamp && r.value.vital == v
                        && r.value.value == window[i].Get(v) && r.value.mean == Mean(ColumnOf(window, v))
    ensures r.Some? <==> Abs(window[i].Get(v) - Mean(ColumnOf(window, v))) > 2.0 * sqrt(SampleVariance(ColumnOf(window, v)))
  {
    var col := ColumnOf(window, v);
    var mean := Mean(col);
    var std := sqrt(SampleVariance(col));
    if Abs(window[i].Get(v) - mean) > 2.0 * std then
      Some(Anomaly(window[i].timestamp, v, window[i].Get(v), mean, std))
    else None
  }

  /** The values of row i reported, over the given columns in order. */
  function RowAnomalies(window: seq<Sample>, i: nat, vs: seq<Vital>, sqrt: real -> real): seq<Anomaly>
    requires i < |window| && |window| >= 2
  {
    if vs == [] then []
    else RowAnomalies(window, i, vs[..|vs| - 1], sqrt) + AsList(VitalAnomaly(window, i, vs[|vs| - 1], sqrt))
  }

  function AsList<T>(o: Option<T>): seq<T>
  {
    if o.Some? then [o.value] else []
  }

  predicate InWindow(window: seq<Sample>, idxs: seq<nat>)
  {
    forall k :: 0 <= k < |idxs| ==> idxs[k] < |window|
  }

  /** The reports for a run of rows, row by row. */
  function AnomaliesAt(window: seq<Sample>, idxs: seq<nat>, sqrt: real -> real): seq<Anomaly>
    requires InWindow(window, idxs) && |window| >= 2
  {
    if idxs == [] then []
    else AnomaliesAt(window, idxs[..|idxs| - 1], sqrt) + RowAnomalies(window, idxs[|idxs| - 1], Vitals, sqrt)
  }

  /** What `detect_anomalies` returns for a window and the outlier labels of its rows. */
  function Anomalies(window: seq<Sample>, flags: seq<bool>, sqrt: real -> real): seq<Anomaly>
    requires |flags| == |window|
  {
    if |window| < MinReadings then []
    else AnomaliesAt(window, Examined(flags), sqrt)
  }

  /** `detect_anomalies(user_id, hours)`, given the user's readings in ascending time order,
      the clock and one outlier label per reading of the window. */
  method DetectAnomalies(stored: seq<Sample>, now: int, hours: nat, flags: seq<bool>, sqrt: real -> real)
    returns (anomalies: seq<Anomaly>)
    requires |flags| == |Window(stored, Since(now, hours))|
    ensures anomalies == Anomalies(Window(stored, Since(now, hours)), flags, sqrt)
  {
    var window := Window(stored, Since(now, hours));
    if |window| < MinReadings {
      return [];
    }
    var idxs := Examined(flags);
    anomalies := [];
    var k := 0;
    while k < |idxs|
      invariant 0 <= k <= |idxs|
      invariant anomalies == AnomaliesAt(window, idxs[..k], sqrt)
    {
      assert idxs[..k + 1][..k] == idxs[..k];
      var row := CheckRow(window, idxs[k], sqrt);
      anomalies := anomalies + row;
      k := k + 1;
    }
    assert idxs[..|idxs|] == idxs;
  }

  /** The inner loop of `detect_anomalies`: the columns of one examined row, in order. */
  method CheckRow(window: seq<Sample>, idx: nat, sqrt: real -> real) returns (row: seq<Anomaly>)
    requires idx < |window| && |window| >= 2
    ensures row == RowAnomalies(window, idx, Vitals, sqrt)
  {
    row := [];
    var j := 0;
    while j < |Vitals|
      invariant 0 <= j <= |Vitals|
      invariant row == RowAnomalies(window, idx, Vitals[..j], sqrt)
    {
      assert Vitals[..j + 1][..j] == Vitals[..j];
      var v := Vitals[j];
      var value := window[idx].Get(v);
      var mean := Mean(ColumnOf(window, v));
      var std := sqrt(SampleVariance(ColumnOf(window, v)));
      if Abs(value - mean) > 2.0 * std {
        row := row + [Anomaly(window[idx].timestamp, v, value, mean, std)];
      }
      j := j + 1;
    }
    assert Vitals[..|Vitals|] == Vitals;
  }

  lemma {:induction false} RowAnomaliesMembers(window: seq<Sample>, i: nat, vs: seq<Vital>, sqrt: real -> real, a: Anomaly)
    requires i < |window| && |window| >= 2
    ensures a in RowAnomalies(window, i, vs, sqrt) <==> a.vital in vs && VitalAnomaly(window, i, a.vital, sqrt) == Some(a)
    ensures |RowAnomalies(window, i, vs, sqrt)| <= |vs|
    decreases |vs|
  {
    if vs != [] {
      var init := vs[..|vs| - 1];
      RowAnomaliesMembers(window, i, init, sqrt, a);
      assert vs == init + [vs[|vs| - 1]];
    }
  }

  lemma {:induction false} AnomaliesAtMembers(window: seq<Sample>, idxs: seq<nat>, sqrt: real -> real, a: Anomaly)
    requires InWindow(window, idxs) && |window| >= 2
    ensures a in AnomaliesAt(window, idxs, sqrt) <==>
              exists i :: i in idxs && i < |window| && VitalAnomaly(window, i, a.vital, sqrt) == Some(a)
    decreases |idxs|
  {
    if idxs != [] {
      var init := idxs[..|idxs| - 1];
      var last := idxs[|idxs| - 1];
      assert idxs == init + [last];
      AnomaliesAtMembers(window, init, sqrt, a);
      RowAnomaliesMembers(window, last, Vitals, sqrt, a);
      VitalsComplete(a.vital);
      if a in RowAnomalies(window, last, Vitals, sqrt) {
        assert last in idxs;
      } else if a in AnomaliesAt(window, init, sqrt) {
        var i :| i in init && i < |window| && VitalAnomaly(window, i, a.vital, sqrt) == Some(a);
        assert i in idxs;
      }
      if exists i :: i in idxs && i < |window| && VitalAnomaly(window, i, a.vital, sqrt) == Some(a) {
        var i :| i in idxs && i < |window| && VitalAnomaly(window, i, a.vital, sqrt) == Some(a);
        if i != last {
          assert i in init;
        }
      }
    }
  }

  /** At most one report per column of each examined row. */
  lemma {:induction false} AnomaliesAtLength(window: seq<Sample>, idxs: seq<nat>, sqrt: real -> real)
    requires InWindow(window, idxs) && |window| >= 2
    ensures |AnomaliesAt(window, idxs, sqrt)| <= |Vitals| * |idxs|
    decreases |idxs|
  {
    if idxs != [] {
      var init := idxs[..|idxs| - 1];
      var last := idxs[|idxs| - 1];
      AnomaliesAtLength(window, init, sqrt);
      RowAnomaliesMembers(window, last, Vitals, sqrt, Anomaly(0, HeartRate, 0.0, 0.0, 0.0));
      assert |Vitals| == 5;
    }
  }

  lemma VitalsComplete(v: Vital)
    ensures v in Vitals
  {
    match v
    case HeartRate => assert Vitals[0] == v;
    case Systolic => assert Vitals[1] == v;
    case Diastolic => assert Vitals[2] == v;
    case Temperature => assert Vitals[3] == v;
    case OxygenSaturation => assert Vitals[4] == v;
  }

  /** A value is reported iff the window has at least ten readings, its row is one of the
      last three flagged rows, and it lies more than two standard deviations from its
      column mean; at most five values per examined row are reported. */
  lemma AnomalyReported(window: seq<Sample>, flags: seq<bool>, sqrt: real -> real, a: Anomaly)
    requires |flags| == |window|
    ensures a in Anomalies(window, flags, sqrt) <==>
              |window| >= MinReadings &&
              exists i :: i in Examined(flags) && i < |window| && VitalAnomaly(window, i, a.vital, sqrt) == Some(a)
    ensures |Anomalies(window, flags, sqrt)| <= |Vitals| * ExaminedRows
  {
    ReportedMembers(window, flags, sqrt, a);
    ReportedCount(window, flags, sqrt);
  }

  lemma ReportedMembers(window: seq<Sample>, flags: seq<bool>, sqrt: real -> real, a: Anomaly)
    requires |flags| == |window|
    ensures a in Anomalies(window, flags, sqrt) <==>
              |window| >= MinReadings &&
              exists i :: i in Examined(flags) && i < |window| && VitalAnomaly(window, i, a.vital, sqrt) == Some(a)
  {
    if |window| >= MinReadings {
      var idxs := Examined(flags);
      assert InWindow(window, idxs);
      AnomaliesAtMembers(window, idxs, sqrt, a);
    }
  }

  lemma ReportedCount(window: seq<Sample>, flags: seq<bool>, sqrt: real -> real)
    requires |flags| == |window|
    ensures |Anomalies(window, flags, sqrt)| <= |Vitals| * ExaminedRows
  {
    if |window| >= MinReadings {
      var idxs := Examined(flags);
      assert InWindow(window, idxs);
      AnomaliesAtLength(window, idxs, sqrt);
    }
  }

  /** With a true square root, the two-standard-deviation test is the comparison of the
      squared deviation with four times the sample variance. */
  lemma VitalAnomalyBySquare(window: seq<Sample>, i: nat, v: Vital, sqrt: real -> real)
    requires i < |window| && |window| >= 2
    requires forall x :: x >= 0.0 ==> sqrt(x) >= 0.0 && sqrt(x) * sqrt(x) == x
    ensures var col := ColumnOf(window, v);
            var d := window[i].Get(v) - Mean(col);
            VitalAnomaly(window, i, v, sqrt).Some? <==> d * d > 4.0 * SampleVariance(col)
  {
    var col := ColumnOf(window, v);
    var d := window[i].Get(v) - Mean(col);
    var std := sqrt(SampleVariance(col));
    SquareComparison(Abs(d), std);
    assert Abs(d) * Abs(d) == d * d;
  }

  /** For non-negative a and b, a > 2b exactly when a² > 4b². */
  lemma SquareComparison(a: real, b: real)
    requires a >= 0.0 && b >= 0.0
    ensures a > 2.0 * b <==> a * a > 4.0 * (b * b)
  {
    var c := 2.0 * b;
    assert a * a - 4.0 * (b * b) == (a - c) * (a + c);
    ProductSign(a - c, a + c);
  }

  lemma ProductSign(x: real, y: real)
    requires y >= 0.0
    ensures x > 0.0 && y > 0.0 ==> x * y > 0.0
    ensures x <= 0.0 ==> x * y <= 0.0
  {
  }

  /** A column that never changes has a zero standard deviation and no reported value. */
  lemma ConstantColumnNeverReported(window: seq<Sample>, flags: seq<bool>, sqrt: real -> real, v: Vital, c: real)
    requires |flags| == |window|
    requires forall i :: 0 <= i < |window| ==> window[i].Get(v) == c
    requires sqrt(0.0) >= 0.0
    ensures forall a :: a in Anomalies(window, flags, sqrt) ==> a.vital != v
  {
    forall a | a in Anomalies(window, flags, sqrt)
      ensures a.vital != v
    {
      AnomalyReported(window, flags, sqrt, a);
      if a.vital == v {
        MeanOfConstant(ColumnOf(window, v), c);
      }
    }
  }

  /** Every reported value lies outside the one-deviation range the report prints, since
      it lies more than two deviations from the mean. */
  lemma ReportedOutsideExpectedRange(window: seq<Sample>, flags: seq<bool>, sqrt: real -> real)
    requires |flags| == |window|
    requires forall x :: x >= 0.0 ==> sqrt(x) >= 0.0
    ensures forall a :: a in Anomalies(window, flags, sqrt) ==>
              Abs(a.value - a.mean) > 2.0 * a.std && (a.value < a.mean - a.std || a.value > a.mean + a.std)
  {
    forall a | a in Anomalies(window, flags, sqrt)
      ensures Abs(a.value - a.mean) > 2.0 * a.std && (a.value < a.mean - a.std || a.value > a.mean + a.std)
    {
      AnomalyReported(window, flags, sqrt, a);
      var i :| i in Examined(flags) && i < |window| && VitalAnomaly(window, i, a.vital, sqrt) == Some(a);
      assert a.std >= 0.0;
    }
  }

  /* ---------- The forecast ---------- */

  /** The predictions for one vital: each step predicts from the current feature row,
      then rolls the row one place left and writes the prediction into its last slot. */
  function Rollout(v: Vital, row: seq<real>, h: nat, predict: (Vital, seq<real>) -> real): (r: seq<real>)
    requires |row| >= 1
    ensures |r| == h
    decreases h
  {
    if h == 0 then []
    else
      var p := predict(v, row);
      [p] + Rollout(v, row[1..] + [p], h - 1, predict)
  }

  /** The k-th prediction sees the starting row shifted left by k places with the k
      earlier predictions appended, as long as k is within the row's width. */
  lemma {:induction false} RolloutSlides(v: Vital, row: seq<real>, h: nat, predict: (Vital, seq<real>) -> real, k: nat)
    requires |row| >= 1 && k < h && k <= |row|
    ensures Rollout(v, row, h, predict)[k] == predict(v, row[k..] + Rollout(v, row, h, predict)[..k])
    decreases k
  {
    var p := predict(v, row);
    var next := row[1..] + [p];
    if k > 0 {
      RolloutSlides(v, next, h - 1, predict, k - 1);
      var rest := Rollout(v, next, h - 1, predict);
      assert Rollout(v, row, h, predict) == [p] + rest;
      SlideWindow(row, p, rest, k);
    } else {
      assert row[k..] + Rollout(v, row, h, predict)[..k] == row;
    }
  }

  /** One step of the slide: dropping the first value and appending p, then k - 1 more. */
  lemma SlideWindow(row: seq<real>, p: real, rest: seq<real>, k: nat)
    requires 1 <= k <= |row| && k - 1 <= |rest|
    ensures (row[1..] + [p])[k - 1..] + rest[..k - 1] == row[k..] + ([p] + rest)[..k]
  {
    assert (row[1..] + [p])[k - 1..] == row[k..] + [p];
    assert ([p] + rest)[..k] == [p] + rest[..k - 1];
  }

  datatype Point = Point(time: int, value: real)

  /** `pd.date_range(start=last, periods=h + 1, freq='H')[1:]` zipped with the values. */
  function HourlyPoints(start: int, values: seq<real>): seq<Point>
  {
    seq(|values|, k requires 0 <= k < |values| => Point(start + 3600 * (k + 1), values[k]))
  }

  /** What `predict_trends` returns: empty below the minimum, otherwise every vital
      with one point per forecast hour after the newest reading. */
  function ForecastOf(window: seq<Sample>, h: nat, lastFeatures: seq<real>, predict: (Vital, seq<real>) -> real)
    : map<Vital, seq<Point>>
    requires |lastFeatures| >= 1
  {
    if |window| < MinReadings then map[]
    else map v | v in Vitals :: HourlyPoints(window[|window| - 1].timestamp, Rollout(v, lastFeatures, h, predict))
  }

  /** `predict_trends(user_id, hours, forecast_hours)`, given the last engineered feature
      row and the fitted model's prediction function. */
  method PredictTrends(stored: seq<Sample>, now: int, hours: nat, h: nat, lastFeatures: seq<real>,
                       predict: (Vital, seq<real>) -> real)
    returns (forecast: map<Vital, seq<Point>>)
    requires |lastFeatures| >= 1
    ensures forecast == ForecastOf(Window(stored, Since(now, hours)), h, lastFeatures, predict)
  {
    var window := Window(stored, Since(now, hours));
    if |window| < MinReadings {
      return map[];
    }
    var start := window[|window| - 1].timestamp;
    forecast := map[];
    var i := 0;
    while i < |Vitals|
      invariant 0 <= i <= |Vitals|
      invariant forall v :: v in forecast <==> v in Vitals[..i]
      invariant forall v :: v in forecast ==> forecast[v] == HourlyPoints(start, Rollout(v, lastFeatures, h, predict))
    {
      var v := Vitals[i];
      var values := PredictVital(v, lastFeatures, h, predict);
      assert Vitals[..i + 1] == Vitals[..i] + [v];
      forecast := forecast[v := HourlyPoints(start, values)];
      i := i + 1;
    }
    assert Vitals[..|Vitals|] == Vitals;
  }

  /** The inner loop of `predict_trends`: h predictions for one vital, each fed back
      into the feature row. */
  method PredictVital(v: Vital, lastFeatures: seq<real>, h: nat, predict: (Vital, seq<real>) -> real)
    returns (values: seq<real>)
    requires |lastFeatures| >= 1
    ensures values == Rollout(v, lastFeatures, h, predict)
  {
    values := [];
    var row := lastFeatures;
    var k := 0;
    while k < h
      invariant 0 <= k <= h
      invariant |row| == |lastFeatures|
      invariant values + Rollout(v, row, h - k, predict) == Rollout(v, lastFeatures, h, predict)
    {
      var p := predict(v, row);
      values := values + [p];
      row := row[1..] + [p];
      k := k + 1;
    }
  }

  /** When the readings are in time order, every forecast point comes after every reading,
      one hour apart. */
  lemma ForecastAfterReadings(window: seq<Sample>, h: nat, lastFeatures: seq<real>,
                              predict: (Vital, seq<real>) -> real, v: Vital)
    requires |lastFeatures| >= 1 && |window| >= MinReadings && Ascending(window)
    ensures v in ForecastOf(window, h, lastFeatures, predict)
    ensures var points := ForecastOf(window, h, lastFeatures, predict)[v];
            |points| == h &&
            (forall k, i :: 0 <= k < h && 0 <= i < |window| ==> points[k].time > window[i].timestamp) &&
            (forall k :: 0 < k < h ==> points[k].time == points[k - 1].time + 3600)
  {
    VitalsComplete(v);
  }

  /* ---------- Insights ---------- */

  datatype Insight = Insight(kind: string, severity: string, message: string, timestamp: int)

  /** The insight for one reported value. */
  function AnomalyInsight(a: Anomaly): Insight
  {
    Insight("anomaly", "warning", AnomalyMessage(a), a.timestamp)
  }

  /** `((last - first) / first) * 100` in float64: a zero first value gives an infinity,
      or NaN when the last value is zero too. */
  datatype Change = Finite(percent: real) | PlusInfinity | MinusInfinity | NotANumber

  function ChangeOf(first: real, last: real): Change
  {
    if first != 0.0 then Finite((last - first) / first * 100.0)
    else if last > 0.0 then PlusInfinity
    else if last < 0.0 then MinusInfinity
    else NotANumber
  }

  /** `abs(change) > 10`; false for NaN. */
  predicate Significant(c: Change)
  {
    match c
    case Finite(p) => Abs(p) > 10.0
    case NotANumber => false
    case _ => true
  }

  /** `change > 0`. */
  predicate Rising(c: Change)
  {
    c.PlusInfinity? || (c.Finite? && c.percent > 0.0)
  }

  /** Away from a zero start, the change is significant iff the forecast moves by more
      than a tenth of its first value, and it reads as a rise iff it moves away from zero
      in the direction of the first value's sign. */
  lemma TrendThreshold(first: real, last: real)
    requires first != 0.0
    ensures Significant(ChangeOf(first, last)) <==> Abs(last - first) * 10.0 > Abs(first)
    ensures Rising(ChangeOf(first, last)) <==> (first > 0.0 && last > first) || (first < 0.0 && last < first)
  {
    var q := (last - first) / first;
    assert ChangeOf(first, last) == Finite(q * 100.0);
    QuotientFacts(last - first, first);
    AbsScale(q, 100.0);
    AbsScale(q, first);
    TenthOf(Abs(q), Abs(first), Abs(last - first));
  }

  /** d = a * m is more than a tenth of m iff a is more than a tenth. */
  lemma TenthOf(a: real, m: real, d: real)
    requires m > 0.0 && d == a * m
    ensures a * 10.0 > 1.0 <==> d * 10.0 > m
  {
    assert d * 10.0 - m == (a * 10.0 - 1.0) * m;
  }

  lemma QuotientFacts(x: real, y: real)
    requires y != 0.0
    ensures x == x / y * y
    ensures x / y > 0.0 <==> (y > 0.0 && x > 0.0) || (y < 0.0 && x < 0.0)
  {
  }

  lemma AbsScale(x: real, y: real)
    ensures Abs(x * y) == Abs(x) * Abs(y)
  {
    if x < 0.0 && y < 0.0 {
      assert x * y == (-x) * (-y);
    } else if x < 0.0 {
      assert -(x * y) == (-x) * y;
    } else if y < 0.0 {
      assert -(x * y) == x * (-y);
    }
  }

  /** `f"{abs(change):.1f}"`. */
  function MagnitudeText(c: Change): (r: string)
    ensures '_' !in r
  {
    if c.Finite? then Fixed1(Abs(c.percent)) else "inf"
  }

  /** The insight for one vital's forecast, when its change is significant. */
  function TrendInsight(v: Vital, values: seq<real>, now: int): Option<Insight>
    requires |values| >= 1
  {
    var c := ChangeOf(values[0], values[|values| - 1]);
    if Significant(c) then
      Some(Insight("trend", "info", TrendMessage(v, c, |values|), now))
    else None
  }

  function TrendInsightsOver(vs: seq<Vital>, lastFeatures: seq<real>, predict: (Vital, seq<real>) -> real, now: int)
    : seq<Insight>
    requires |lastFeatures| >= 1
  {
    if vs == [] then []
    else
      TrendInsightsOver(vs[..|vs| - 1], lastFeatures, predict, now)
      + AsList(TrendInsight(vs[|vs| - 1], Rollout(vs[|vs| - 1], lastFeatures, ForecastHours, predict), now))
  }

  function AnomalyInsights(anomalies: seq<Anomaly>): (r: seq<Insight>)
    ensures |r| == |anomalies|
  {
    seq(|anomalies|, i requires 0 <= i < |anomalies| => AnomalyInsight(anomalies[i]))
  }

  /** What `generate_health_insights` returns: one insight per reported value, then one per
      vital whose four-hour forecast changes significantly. */
  function HealthInsights(window: seq<Sample>, flags: seq<bool>, sqrt: real -> real,
                          lastFeatures: seq<real>, predict: (Vital, seq<real>) -> real, now: int): seq<Insight>
    requires |flags| == |window| && |lastFeatures| >= 1
  {
    AnomalyInsights(Anomalies(window, flags, sqrt))
    + (if |window| < MinReadings then [] else TrendInsightsOver(Vitals, lastFeatures, predict, now))
  }

  /** `generate_health_insights(user_id)`: both analyses over the last 24 hours, with a
      four-hour forecast. */
  method GenerateHealthInsights(stored: seq<Sample>, now: int, flags: seq<bool>, sqrt: real -> real,
                                lastFeatures: seq<real>, predict: (Vital, seq<real>) -> real)
    returns (insights: seq<Insight>)
    requires |flags| == |Window(stored, Since(now, LookbackHours))| && |lastFeatures| >= 1
    ensures insights == HealthInsights(Window(stored, Since(now, LookbackHours)), flags, sqrt, lastFeatures, predict, now)
  {
    var window := Window(stored, Since(now, LookbackHours));
    var anomalies := DetectAnomalies(stored, now, LookbackHours, flags, sqrt);
    var forecast := PredictTrends(stored, now, LookbackHours, ForecastHours, lastFeatures, predict);
    insights := InsightsFromAnomalies(anomalies);
    ForecastEmptyIff(window, lastFeatures, predict);
    if forecast != map[] {
      ForecastEntries(window, ForecastHours, lastFeatures, predict);
      var trends := TrendInsightsFrom(forecast, window[|window| - 1].timestamp, lastFeatures, predict, now);
      insights := insights + trends;
    }
  }

  /** The first loop of `generate_health_insights`: one warning per anomaly. */
  method InsightsFromAnomalies(anomalies: seq<Anomaly>) returns (insights: seq<Insight>)
    ensures insights == AnomalyInsights(anomalies)
  {
    insights := [];
    var i := 0;
    while i < |anomalies|
      invariant 0 <= i <= |anomalies|
      invariant |insights| == i
      invariant forall k :: 0 <= k < i ==> insights[k] == AnomalyInsight(anomalies[k])
    {
      insights := insights + [AnomalyInsight(anomalies[i])];
      i := i + 1;
    }
  }

  /** Past the minimum, the forecast holds every vital. */
  lemma ForecastEntries(window: seq<Sample>, h: nat, lastFeatures: seq<real>, predict: (Vital, seq<real>) -> real)
    requires |lastFeatures| >= 1 && |window| >= MinReadings
    ensures forall v :: v in ForecastOf(window, h, lastFeatures, predict) &&
              ForecastOf(window, h, lastFeatures, predict)[v]
              == HourlyPoints(window[|window| - 1].timestamp, Rollout(v, lastFeatures, h, predict))
  {
    forall v: Vital
      ensures v in Vitals
    {
      VitalsComplete(v);
    }
  }

  /** `if predictions:` holds exactly when the window reaches the minimum. */
  lemma ForecastEmptyIff(window: seq<Sample>, lastFeatures: seq<real>, predict: (Vital, seq<real>) -> real)
    requires |lastFeatures| >= 1
    ensures ForecastOf(window, ForecastHours, lastFeatures, predict) == map[] <==> |window| < MinReadings
  {
    if |window| >= MinReadings {
      VitalsComplete(HeartRate);
      assert HeartRate in ForecastOf(window, ForecastHours, lastFeatures, predict);
    }
  }

  /** The second loop of `generate_health_insights`: one insight per vital whose forecast
      changes significantly between its first and last point. */
  method TrendInsightsFrom(forecast: map<Vital, seq<Point>>, start: int, lastFeatures: seq<real>,
                           predict: (Vital, seq<real>) -> real, now: int)
    returns (insights: seq<Insight>)
    requires |lastFeatures| >= 1
    requires forall v :: v in forecast && forecast[v] == HourlyPoints(start, Rollout(v, lastFeatures, ForecastHours, predict))
    ensures insights == TrendInsightsOver(Vitals, lastFeatures, predict, now)
  {
    insights := [];
    var j := 0;
    while j < |Vitals|
      invariant 0 <= j <= |Vitals|
      invariant insights == TrendInsightsOver(Vitals[..j], lastFeatures, predict, now)
    {
      var v := Vitals[j];
      TrendInsightsStep(Vitals, j, lastFeatures, predict, now);
      var points := forecast[v];
      ghost var values := Rollout(v, lastFeatures, ForecastHours, predict);
      assert points == HourlyPoints(start, values);
      assert points[0].value == values[0] && points[|points| - 1].value == values[|values| - 1];
      var change := ChangeOf(points[0].value, points[|points| - 1].value);
      if Significant(change) {
        insights := insights + [Insight("trend", "info", TrendMessage(v, change, |points|), now)];
      }
      j := j + 1;
    }
    assert Vitals[..|Vitals|] == Vitals;
  }

  lemma TrendInsightsStep(vs: seq<Vital>, j: nat, lastFeatures: seq<real>, predict: (Vital, seq<real>) -> real, now: int)
    requires |lastFeatures| >= 1 && j < |vs|
    ensures TrendInsightsOver(vs[..j + 1], lastFeatures, predict, now)
            == TrendInsightsOver(vs[..j], lastFeatures, predict, now)
               + AsList(TrendInsight(vs[j], Rollout(vs[j], lastFeatures, ForecastHours, predict), now))
  {
    assert vs[..j + 1][..j] == vs[..j];
  }

  /** `f"Predicted {abs(change):.1f}% {direction} in {label} over next {n} hours"`. */
  function TrendMessage(v: Vital, c: Change, n: nat): (r: string)
    ensures '_' !in r
  {
    TrendHead(c) + Direction(c) + TrendTail(v, n)
  }

  function Direction(c: Change): (r: string)
    ensures r == "increase" || r == "decrease"
  {
    if Rising(c) then "increase" else "decrease"
  }

  function TrendHead(c: Change): (r: string)
    ensures '_' !in r
  {
    var s := "Predicted " + MagnitudeText(c);
    assert '_' !in s;
    s + "% "
  }

  function TrendTail(v: Vital, n: nat): (r: string)
    ensures '_' !in r
  {
    var s := " in " + Label(v);
    assert '_' !in s;
    var t := s + " over next " + NatText(n);
    assert '_' !in t;
    t + " hours"
  }

  /** `f"Unusual {label} detected: {value:.1f} (Expected range: {range})"`. */
  function AnomalyMessage(a: Anomaly): (r: string)
    ensures '_' !in r
  {
    var s1 := "Unusual " + Label(a.vital);
    assert '_' !in s1;
    var s2 := s1 + " detected: " + Fixed1(a.value);
    assert '_' !in s2;
    var s3 := s2 + " (Expected range: " + a.ExpectedRange();
    assert '_' !in s3;
    s3 + ")"
  }

  lemma {:induction false} TrendInsightsAreInfo(vs: seq<Vital>, lastFeatures: seq<real>,
                                                predict: (Vital, seq<real>) -> real, now: int)
    requires |lastFeatures| >= 1
    ensures forall x :: x in TrendInsightsOver(vs, lastFeatures, predict, now) ==>
              x.kind == "trend" && x.severity == "info" && x.timestamp == now && '_' !in x.message
    decreases |vs|
  {
    if vs != [] {
      TrendInsightsAreInfo(vs[..|vs| - 1], lastFeatures, predict, now);
    }
  }

  /** Insights never carry a column name: every '_' has been replaced by a space and the
      numbers print as digits, a point and a sign. Anomaly insights are 'warning', trend
      insights 'info'. */
  lemma InsightShapes(window: seq<Sample>, flags: seq<bool>, sqrt: real -> real,
                      lastFeatures: seq<real>, predict: (Vital, seq<real>) -> real, now: int)
    requires |flags| == |window| && |lastFeatures| >= 1
    ensures forall x :: x in HealthInsights(window, flags, sqrt, lastFeatures, predict, now) ==>
              '_' !in x.message && (x.kind == "anomaly" <==> x.severity == "warning")
              && (x.kind == "anomaly" || x.kind == "trend")
  {
    TrendInsightsAreInfo(Vitals, lastFeatures, predict, now);
  }

  /** A forecast starting at zero and ending above it reports an infinite increase. */
  lemma ZeroStartIsInfinite(v: Vital, values: seq<real>, now: int)
    requires |values| >= 1 && values[0] == 0.0 && values[|values| - 1] > 0.0
    ensures TrendInsight(v, values, now).Some?
    ensures TrendInsight(v, values, now).value.message == TrendMessage(v, PlusInfinity, |values|)
    ensures MagnitudeText(PlusInfinity) == "inf" && Rising(PlusInfinity)
  {
  }

  /* ---------- Saving ---------- */

  /** `insight['severity'] in ['warning', 'danger']`. */
  predicate Kept(x: Insight)
  {
    x.severity == "warning" || x.severity == "danger"
  }

  /** The insights that become alerts, in order. */
  function KeptInsights(xs: seq<Insight>): (r: seq<Insight>)
    ensures forall x :: x in r <==> x in xs && Kept(x)
    ensures |r| <= |xs|
  {
    if xs == [] then []
    else KeptInsights(xs[..|xs| - 1]) + (if Kept(xs[|xs| - 1]) then [xs[|xs| - 1]] else [])
  }

  /** The alert rows inserted for kept insights, numbered from `firstId`; the alert type
      is the insight's severity. */
  function InsightAlerts(firstId: nat, userId: int, kept: seq<Insight>): seq<Alert>
  {
    seq(|kept|, k requires 0 <= k < |kept| =>
      NewAlert(firstId + k, userId, kept[k].severity, kept[k].message, kept[k].timestamp))
  }

  /** `save_insights(user_id, insights)`. */
  method SaveInsights(table: AlertTable, userId: int, insights: seq<Insight>)
    requires table.Valid()
    modifies table
    ensures table.Valid()
    ensures table.alerts == old(table.alerts) + InsightAlerts(|old(table.alerts)| + 1, userId, KeptInsights(insights))
  {
    var firstId := |table.alerts| + 1;
    var i := 0;
    while i < |insights|
      invariant 0 <= i <= |insights|
      invariant table.Valid()
      invariant table.alerts == old(table.alerts) + InsightAlerts(firstId, userId, KeptInsights(insights[..i]))
    {
      var x := insights[i];
      assert insights[..i + 1][..i] == insights[..i];
      if x.severity == "warning" || x.severity == "danger" {
        var id := table.Add(userId, x.severity, x.message, x.timestamp);
      }
      i := i + 1;
    }
    assert insights[..|insights|] == insights;
  }

  lemma {:induction false} KeptAppend(a: seq<Insight>, b: seq<Insight>)
    ensures KeptInsights(a + b) == KeptInsights(a) + KeptInsights(b)
    decreases |b|
  {
    if b != [] {
      var init := b[..|b| - 1];
      KeptAppend(a, init);
      assert (a + b)[..|a + b| - 1] == a + init;
    } else {
      assert a + b == a;
    }
  }

  /** Only the anomaly insights are saved: every one of them, in order, and none of the
      trend insights. */
  lemma SavedAreTheAnomalies(window: seq<Sample>, flags: seq<bool>, sqrt: real -> real,
                             lastFeatures: seq<real>, predict: (Vital, seq<real>) -> real, now: int)
    requires |flags| == |window| && |lastFeatures| >= 1
    ensures KeptInsights(HealthInsights(window, flags, sqrt, lastFeatures, predict, now))
            == AnomalyInsights(Anomalies(window, flags, sqrt))
  {
    var head := AnomalyInsights(Anomalies(window, flags, sqrt));
    var tail := if |window| < MinReadings then [] else TrendInsightsOver(Vitals, lastFeatures, predict, now);
    KeptAppend(head, tail);
    TrendInsightsAreInfo(Vitals, lastFeatures, predict, now);
    AllKept(head);
    NoneKept(tail);
  }

  lemma {:induction false} AllKept(xs: seq<Insight>)
    requires forall x :: x in xs ==> Kept(x)
    ensures KeptInsights(xs) == xs
    decreases |xs|
  {
    if xs != [] {
      AllKept(xs[..|xs| - 1]);
      assert xs[..|xs| - 1] + [xs[|xs| - 1]] == xs;
    }
  }

  lemma NoneKept(xs: seq<Insight>)
    requires forall x :: x in xs ==> !Kept(x)
    ensures KeptInsights(xs) == []
  {
    if KeptInsights(xs) != [] {
      assert KeptInsights(xs)[0] in KeptInsights(xs);
    }
  }
}
