/** The dashboard server's logic: the climate it hands to the predictor, and the two scans of
    the prediction log that list running and finished batches. */
module App {
  import opened Wrappers
  import opened Numerics
  import Sorting
  import Text
  import opened CsvLog
  import Predict

  // ---- /predict: the climate passed to the predictor ----

  /** A cached sensor reading: a number, or a marker such as "Error" or "N/A". */
  datatype SensorValue = Reading(value: real) | NotANumber

  const FallbackTemperature: real := 25.0
  const FallbackHumidity: real := 50.0

  /** `float(latest_sensor_data[...])`, falling back when the cached value is not a number. */
  function SensorOr(v: SensorValue, fallback: real): (r: real)
    ensures v.Reading? ==> r == v.value
    ensures v.NotANumber? ==> r == fallback
  {
    match v
    case Reading(x) => x
    case NotANumber => fallback
  }

  /** The fields of a prediction request. */
  datatype PredictRequest = PredictRequest(species: string, thicknessCm: real, initialMc: real, targetMc: real)

  /** The query the predictor receives: the request's board and the cached climate, with 25 degrees
      and 50 % standing in for readings that are not numbers. */
  function PredictorQuery(req: PredictRequest, temp: SensorValue, humidity: SensorValue): (q: Predict.Query)
    ensures q.species == req.species && q.thicknessCm == req.thicknessCm
    ensures q.initialMc == req.initialMc && q.targetMc == req.targetMc
    ensures temp.Reading? ==> q.tempC == temp.value
    ensures temp.NotANumber? ==> q.tempC == FallbackTemperature
    ensures humidity.Reading? ==> q.humidityRh == humidity.value
    ensures humidity.NotANumber? ==> q.humidityRh == FallbackHumidity
  {
    Predict.Query(req.species, req.thicknessCm, req.initialMc, req.targetMc,
                  SensorOr(temp, FallbackTemperature), SensorOr(humidity, FallbackHumidity))
  }

  /** With no sensor readings at all, both what-if scenarios of the predictor run. */
  lemma FallbackClimateRunsScenarios(req: PredictRequest)
    ensures var rec := Predict.BaselineInput(PredictorQuery(req, NotANumber, NotANumber));
      Predict.TempScenarioRuns(rec) && Predict.HumidityScenarioRuns(rec)
  {
  }

  // ---- Running cost ----

  const BaseCostRatePerHour: real := 0.5
  const TempCostFactor: real := 0.02
  const CostReferenceTemp: real := 25.0

  /** The hourly rate: the base rate, raised by 2 % per degree above 25 degrees. */
  function CostRate(tempC: real): (r: real)
    ensures r >= BaseCostRatePerHour
    ensures r == BaseCostRatePerHour <==> tempC <= CostReferenceTemp
  {
    BaseCostRatePerHour * (1.0 + Max(0.0, tempC - CostReferenceTemp) * TempCostFactor)
  }

  lemma CostRateMonotone(a: real, b: real)
    requires a <= b
    ensures CostRate(a) <= CostRate(b)
  {
    var da := Max(0.0, a - CostReferenceTemp);
    var db := Max(0.0, b - CostReferenceTemp);
    assert da <= db;
  }

  /** The logged temperature the cost uses: 25 degrees when the column is missing, None or not a number. */
  function LoggedTemperature(p: Parsers, row: CsvRow): (t: real)
    ensures NumberOr(p, row, TemperatureColumn, CostReferenceTemp).Some? ==>
              t == NumberOr(p, row, TemperatureColumn, CostReferenceTemp).value
    ensures NumberOr(p, row, TemperatureColumn, CostReferenceTemp).None? ==> t == CostReferenceTemp
  {
    match NumberOr(p, row, TemperatureColumn, CostReferenceTemp)
    case Some(t) => t
    case None => CostReferenceTemp
  }

  /** A row whose temperature is missing, None or unparseable is charged the base rate. */
  lemma UnreadableTemperatureBaseRate(p: Parsers, row: CsvRow)
    requires TemperatureColumn !in row || row[TemperatureColumn].None?
             || p.number(row[TemperatureColumn].value).None?
    ensures CostRate(LoggedTemperature(p, row)) == BaseCostRatePerHour
  {
  }

  /** The estimated cost of a batch, rounded to two decimals; never below the base-rate cost. */
  function EstimatedCost(hours: real, tempC: real): (c: real)
    requires hours >= 0.0
    ensures c >= Round2(hours * BaseCostRatePerHour)
  {
    BaseCostBelow(hours, tempC);
    Round2Monotone(hours * BaseCostRatePerHour, hours * CostRate(tempC));
    Round2(hours * CostRate(tempC))
  }

  lemma BaseCostBelow(hours: real, tempC: real)
    requires hours >= 0.0
    ensures hours * BaseCostRatePerHour <= hours * CostRate(tempC)
  {
    var r := CostRate(tempC);
    assert hours * r - hours * BaseCostRatePerHour == hours * (r - BaseCostRatePerHour);
  }

  // ---- Batch ids ----

  /** `B` + the start date as yymmdd + the one-based row number padded to three digits. */
  function BatchId(start: Instant, i: nat): (id: string)
    ensures |id| >= 4 && id[0] == 'B'
    ensures |start.day| == 6 && i < 999 ==> |id| == 10
  {
    "B" + start.day + Text.Format03(i + 1)
  }

  /** On a parser with six-character dates, a batch id names its date and its row. */
  lemma BatchIdInjective(a: Instant, i: nat, b: Instant, j: nat)
    requires |a.day| == 6 && |b.day| == 6
    requires BatchId(a, i) == BatchId(b, j)
    ensures a.day == b.day && i == j
  {
    var x := BatchId(a, i);
    assert a.day == x[1..7];
    assert b.day == BatchId(b, j)[1..7];
    assert Text.Format03(i + 1) == x[7..];
    assert Text.Format03(j + 1) == BatchId(b, j)[7..];
    Text.Format03Injective(i + 1, j + 1);
  }

  // ---- /get_active_jobs ----

  /** An entry of the active list. */
  datatype ActiveJob = ActiveJob(id: string, species: Option<string>, thickness: Option<string>,
                                 initialMc: Option<string>, targetMc: Option<string>,
                                 start: Instant, endSeconds: real, predictedHours: real,
                                 isReady: bool, estimatedCost: real)

  /** `float(row.get('Predicted_Hours', 0))`. */
  function ActiveHours(p: Parsers, row: CsvRow): (h: Option<real>)
    ensures PredictedHoursColumn !in row ==> h == Some(0.0)
    ensures h.Some? && h.value > 0.0 ==> PredictedHoursColumn in row && row[PredictedHoursColumn].Some?
  {
    NumberOr(p, row, PredictedHoursColumn, 0.0)
  }

  /** What row `i` adds to the active list: nothing when it is malformed, has no positive
      prediction, or is already finished at `now`. */
  function ActiveEntry(p: Parsers, row: CsvRow, i: nat, now: real): (e: Option<ActiveJob>)
    ensures e.Some? <==>
      StartOf(p, row).Some? && ActiveHours(p, row).Some? && ActiveHours(p, row).value > 0.0
      && EndSeconds(StartOf(p, row).value, ActiveHours(p, row).value) > now
    ensures e.Some? ==>
      && e.value.id == BatchId(StartOf(p, row).value, i)
      && e.value.start == StartOf(p, row).value
      && e.value.predictedHours == ActiveHours(p, row).value
      && e.value.endSeconds == EndSeconds(e.value.start, e.value.predictedHours)
      && e.value.endSeconds > now && e.value.predictedHours > 0.0 && !e.value.isReady
      && e.value.estimatedCost == EstimatedCost(e.value.predictedHours, LoggedTemperature(p, row))
      && e.value.species == GetOr(row, SpeciesColumn, "N/A")
      && e.value.thickness == GetOr(row, ThicknessColumn, "N/A")
      && e.value.initialMc == GetOr(row, InitialMoistureColumn, "N/A")
      && e.value.targetMc == GetOr(row, TargetMoistureColumn, "N/A")
  {
    match StartOf(p, row)
    case None => None
    case Some(start) =>
      match ActiveHours(p, row)
      case None => None
      case Some(hours) =>
        if hours <= 0.0 then None
        else
          var end := EndSeconds(start, hours);
          var isReady := end <= now;
          var cost := EstimatedCost(hours, LoggedTemperature(p, row));
          if isReady then None
          else Some(ActiveJob(BatchId(start, i), GetOr(row, SpeciesColumn, "N/A"),
                              GetOr(row, ThicknessColumn, "N/A"), GetOr(row, InitialMoistureColumn, "N/A"),
                              GetOr(row, TargetMoistureColumn, "N/A"), start, end, hours, isReady, cost))
  }

  /** The active list before sorting, after the first `n` rows: at most one job per row, in log
      order, each still running at `now`. */
  function ActiveScan(p: Parsers, rows: seq<CsvRow>, now: real, n: nat): (r: seq<ActiveJob>)
    requires n <= |rows|
    ensures |r| <= n
    ensures n > 0 && ActiveEntry(p, rows[n - 1], n - 1, now).Some? ==>
      |r| > 0 && r[|r| - 1] == ActiveEntry(p, rows[n - 1], n - 1, now).value
    ensures forall k :: 0 <= k < |r| ==> r[k].endSeconds > now && r[k].predictedHours > 0.0 && !r[k].isReady
  {
    if n == 0 then [] else ActiveScan(p, rows, now, n - 1) + ToSeq(ActiveEntry(p, rows[n - 1], n - 1, now))
  }

  /** A job is in the scan exactly when some row of the prefix yields it: a malformed row
      contributes nothing and stops nothing. */
  lemma {:induction false} ActiveScanMembers(p: Parsers, rows: seq<CsvRow>, now: real, n: nat)
    requires n <= |rows|
    ensures forall j :: j in ActiveScan(p, rows, now, n) <==>
      exists i :: 0 <= i < n && ActiveEntry(p, rows[i], i, now) == Some(j)
  {
    if n > 0 {
      ActiveScanMembers(p, rows, now, n - 1);
      forall j | j in ActiveScan(p, rows, now, n)
        ensures exists i :: 0 <= i < n && ActiveEntry(p, rows[i], i, now) == Some(j)
      {
        if j !in ActiveScan(p, rows, now, n - 1) {
          assert ActiveEntry(p, rows[n - 1], n - 1, now) == Some(j);
        }
      }
      forall j | exists i :: 0 <= i < n && ActiveEntry(p, rows[i], i, now) == Some(j)
        ensures j in ActiveScan(p, rows, now, n)
      {
        var i :| 0 <= i < n && ActiveEntry(p, rows[i], i, now) == Some(j);
        if i == n - 1 {
          assert j in ToSeq(ActiveEntry(p, rows[n - 1], n - 1, now));
        }
      }
    }
  }

  /** Sorting key of the active list: the end time (its ISO rendering orders the same way). */
  function EndKey(j: ActiveJob): real {
    j.endSeconds
  }

  /** The sorted active list holds exactly the jobs the rows yield, each still running, soonest
      end first, jobs ending together in log order. */
  lemma ActiveListFacts(p: Parsers, rows: seq<CsvRow>, now: real)
    ensures var jobs := Sorting.SortBy(ActiveScan(p, rows, now, |rows|), EndKey);
      && (forall j :: j in jobs <==> exists i :: 0 <= i < |rows| && ActiveEntry(p, rows[i], i, now) == Some(j))
      && (forall j :: j in jobs ==> j.endSeconds > now && j.predictedHours > 0.0 && !j.isReady)
      && Sorting.SortedBy(jobs, EndKey)
      && (forall k :: Sorting.WithKey(jobs, EndKey, k) == Sorting.WithKey(ActiveScan(p, rows, now, |rows|), EndKey, k))
  {
    var unsorted := ActiveScan(p, rows, now, |rows|);
    var jobs := Sorting.SortBy(unsorted, EndKey);
    ActiveScanMembers(p, rows, now, |rows|);
    Sorting.SortBySorted(unsorted, EndKey);
    Sorting.SortByStableAll(unsorted, EndKey);
    Sorting.SortByKeepsMembers(unsorted, EndKey);
  }

  /** The active-jobs endpoint: the running batches of the log, soonest end first. No log gives an
      empty list; a row that fails to parse is skipped. */
  method GetActiveJobs(p: Parsers, log: Option<seq<CsvRow>>, now: real) returns (jobs: seq<ActiveJob>)
    ensures log.None? ==> jobs == []
    ensures log.Some? ==> jobs == Sorting.SortBy(ActiveScan(p, log.value, now, |log.value|), EndKey)
  {
    if log.None? {
      return [];
    }
    var rows := log.value;
    jobs := [];
    for i := 0 to |rows|
      invariant jobs == ActiveScan(p, rows, now, i)
    {
      var entry := ActiveEntry(p, rows[i], i, now);
      if entry.Some? {
        jobs := jobs + [entry.value];
      }
    }
    jobs := Sorting.SortBy(jobs, EndKey);
  }

  // ---- /get_history ----

  /** An entry of the history list. */
  datatype HistoryJob = HistoryJob(batchId: string, timestamp: string, species: Option<string>,
                                   startMinute: int, initialMoisture: Option<string>,
                                   finalMoisture: Option<string>, predictedHours: Option<string>)

  /** `start_time.strftime('%Y-%m-%d %H:%M')` as a number: the start truncated to the minute. */
  function StartMinute(start: Instant): (m: int)
    ensures m * 60 <= start.seconds < m * 60 + 60
  {
    start.seconds / 60
  }

  /** What row `i` adds to the history list: nothing unless its timestamp and its
      `Predicted_Hours` parse and it has ended by `now`. */
  function HistoryEntry(p: Parsers, row: CsvRow, i: nat, now: real): (e: Option<HistoryJob>)
    ensures e.Some? <==>
      StartOf(p, row).Some? && NumberAt(p, row, PredictedHoursColumn).Some?
      && EndSeconds(StartOf(p, row).value, NumberAt(p, row, PredictedHoursColumn).value) <= now
    ensures e.Some? ==>
      && e.value.batchId == BatchId(StartOf(p, row).value, i)
      && e.value.timestamp == row[TimestampColumn].value
      && e.value.startMinute == StartMinute(StartOf(p, row).value)
      && e.value.species == GetOr(row, SpeciesColumn, "N/A")
      && e.value.initialMoisture == GetOr(row, InitialMoistureColumn, "N/A")
      && e.value.finalMoisture == GetOr(row, TargetMoistureColumn, "N/A")
      && e.value.predictedHours == row[PredictedHoursColumn]
  {
    match Get(row, TimestampColumn)
    case Missing => None
    case Null => None
    case Text(startText) =>
      match p.timestamp(startText)
      case None => None
      case Some(start) =>
        match NumberAt(p, row, PredictedHoursColumn)
        case None => None
        case Some(hours) =>
          if EndSeconds(start, hours) <= now
          then Some(HistoryJob(BatchId(start, i), startText, GetOr(row, SpeciesColumn, "N/A"),
                               StartMinute(start), GetOr(row, InitialMoistureColumn, "N/A"),
                               GetOr(row, TargetMoistureColumn, "N/A"), GetOr(row, PredictedHoursColumn, "N/A")))
          else None
  }

  /** A row that parses with a positive prediction is listed as active or as finished, never both
      and never neither. */
  lemma ActiveOrHistory(p: Parsers, row: CsvRow, i: nat, now: real)
    requires StartOf(p, row).Some?
    requires NumberAt(p, row, PredictedHoursColumn).Some? && NumberAt(p, row, PredictedHoursColumn).value > 0.0
    ensures ActiveEntry(p, row, i, now).Some? <==> HistoryEntry(p, row, i, now).None?
  {
    assert ActiveHours(p, row) == NumberAt(p, row, PredictedHoursColumn);
  }

  /** A row without a positive prediction is never active, even when it has not ended. */
  lemma NonPositiveNeverActive(p: Parsers, row: CsvRow, i: nat, now: real)
    requires ActiveHours(p, row).Some? ==> ActiveHours(p, row).value <= 0.0
    ensures ActiveEntry(p, row, i, now).None?
  {
  }

  /** The history list before sorting, after the first `n` rows: at most one job per row, in log
      order. */
  function HistoryScan(p: Parsers, rows: seq<CsvRow>, now: real, n: nat): (r: seq<HistoryJob>)
    requires n <= |rows|
    ensures |r| <= n
    ensures n > 0 && HistoryEntry(p, rows[n - 1], n - 1, now).Some? ==>
      |r| > 0 && r[|r| - 1] == HistoryEntry(p, rows[n - 1], n - 1, now).value
  {
    if n == 0 then [] else HistoryScan(p, rows, now, n - 1) + ToSeq(HistoryEntry(p, rows[n - 1], n - 1, now))
  }

  lemma {:induction false} HistoryScanMembers(p: Parsers, rows: seq<CsvRow>, now: real, n: nat)
    requires n <= |rows|
    ensures forall j :: j in HistoryScan(p, rows, now, n) <==>
      exists i :: 0 <= i < n && HistoryEntry(p, rows[i], i, now) == Some(j)
  {
    if n > 0 {
      HistoryScanMembers(p, rows, now, n - 1);
      forall j | j in HistoryScan(p, rows, now, n)
        ensures exists i :: 0 <= i < n && HistoryEntry(p, rows[i], i, now) == Some(j)
      {
        if j !in HistoryScan(p, rows, now, n - 1) {
          assert HistoryEntry(p, rows[n - 1], n - 1, now) == Some(j);
        }
      }
      forall j | exists i :: 0 <= i < n && HistoryEntry(p, rows[i], i, now) == Some(j)
        ensures j in HistoryScan(p, rows, now, n)
      {
        var i :| 0 <= i < n && HistoryEntry(p, rows[i], i, now) == Some(j);
        if i == n - 1 {
          assert j in ToSeq(HistoryEntry(p, rows[n - 1], n - 1, now));
        }
      }
    }
  }

  /** `sort(key=start_time, reverse=True)` is a stable ascending sort on the negated key. */
  function LatestFirstKey(j: HistoryJob): real {
    -(j.startMinute as real)
  }

  /** The sorted history holds exactly the jobs the rows yield, latest start minute first, jobs
      starting in the same minute in log order. */
  lemma HistoryListFacts(p: Parsers, rows: seq<CsvRow>, now: real)
    ensures var jobs := Sorting.SortBy(HistoryScan(p, rows, now, |rows|), LatestFirstKey);
      && (forall j :: j in jobs <==> exists i :: 0 <= i < |rows| && HistoryEntry(p, rows[i], i, now) == Some(j))
      && (forall a, b :: 0 <= a < b < |jobs| ==> jobs[a].startMinute >= jobs[b].startMinute)
      && (forall k :: Sorting.WithKey(jobs, LatestFirstKey, k)
                      == Sorting.WithKey(HistoryScan(p, rows, now, |rows|), LatestFirstKey, k))
  {
    var unsorted := HistoryScan(p, rows, now, |rows|);
    var jobs := Sorting.SortBy(unsorted, LatestFirstKey);
    HistoryScanMembers(p, rows, now, |rows|);
    Sorting.SortBySorted(unsorted, LatestFirstKey);
    forall a, b | 0 <= a < b < |jobs| ensures jobs[a].startMinute >= jobs[b].startMinute {
      assert LatestFirstKey(jobs[a]) <= LatestFirstKey(jobs[b]);
    }
    Sorting.SortByStableAll(unsorted, LatestFirstKey);
    Sorting.SortByKeepsMembers(unsorted, LatestFirstKey);
  }

  /** The history endpoint: the finished batches of the log, latest start first. No log gives an
      empty list; a row that fails to parse is skipped. */
  method GetHistory(p: Parsers, log: Option<seq<CsvRow>>, now: real) returns (jobs: seq<HistoryJob>)
    ensures log.None? ==> jobs == []
    ensures log.Some? ==> jobs == Sorting.SortBy(HistoryScan(p, log.value, now, |log.value|), LatestFirstKey)
  {
    if log.None? {
      return [];
    }
    var rows := log.value;
    jobs := [];
    for i := 0 to |rows|
      invariant jobs == HistoryScan(p, rows, now, i)
    {
      var entry := HistoryEntry(p, rows[i], i, now);
      if entry.Some? {
        jobs := jobs + [entry.value];
      }
    }
    jobs := Sorting.SortBy(jobs, LatestFirstKey);
  }
}
