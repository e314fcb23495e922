/** The prediction log as the dashboard and the reminder service read it: one dictionary per
    row, as Python's csv.DictReader yields them, and the two parsers they apply to fields. */
module CsvLog {
  import opened Wrappers

  /** A row keyed by the header's column names. A key maps to None when the row is shorter than
      the header (DictReader's restval); a column the header lacks is not a key at all. */
  type CsvRow = map<string, Option<string>>

  const TimestampColumn: string := "Timestamp"
  const SpeciesColumn: string := "Species"
  const ThicknessColumn: string := "Thickness_cm"
  const InitialMoistureColumn: string := "Initial_Moisture"
  const TargetMoistureColumn: string := "Target_Moisture"
  const TemperatureColumn: string := "Temperature_C"
  const PredictedHoursColumn: string := "Predicted_Hours"

  /** What a field lookup finds: no such column, a None value, or text. */
  datatype Lookup = Missing | Null | Text(s: string)

  function Get(row: CsvRow, col: string): (l: Lookup)
    ensures l.Missing? <==> col !in row
    ensures l.Null? <==> col in row && row[col].None?
    ensures l.Text? <==> col in row && row[col].Some?
    ensures l.Text? ==> row[col].value == l.s
  {
    if col !in row then Missing
    else if row[col].None? then Null
    else Text(row[col].value)
  }

  /** `row.get(col, default)` where the result is passed on as a value: the default for a missing
      column, None for a None field, the text otherwise. */
  function GetOr(row: CsvRow, col: string, default: string): (v: Option<string>)
    ensures col !in row ==> v == Some(default)
    ensures col in row ==> v == row[col]
  {
    match Get(row, col)
    case Missing => Some(default)
    case Null => None
    case Text(s) => Some(s)
  }

  /** A timestamp parsed by `strptime(s, '%Y-%m-%d %H:%M:%S')`: whole seconds since a fixed
      epoch, and the `%y%m%d` rendering of its date. */
  datatype Instant = Instant(seconds: int, day: string)

  /** The parsers the scans call: `strptime` with the log's format and `float` on text. Each
      yields None where Python raises ValueError. */
  datatype Parsers = Parsers(timestamp: string -> Option<Instant>, number: string -> Option<real>)

  /** `float(row.get(col, default))`: the default for a missing column, a TypeError (None) for a
      None field, the parse of the text otherwise. */
  function NumberOr(p: Parsers, row: CsvRow, col: string, default: real): (r: Option<real>)
    ensures col !in row ==> r == Some(default)
    ensures col in row && row[col].None? ==> r.None?
    ensures col in row && row[col].Some? ==> r == p.number(row[col].value)
  {
    match Get(row, col)
    case Missing => Some(default)
    case Null => None
    case Text(s) => p.number(s)
  }

  /** `float(row[col])`: a KeyError (None) for a missing column, otherwise as `NumberOr`. */
  function NumberAt(p: Parsers, row: CsvRow, col: string): (r: Option<real>)
    ensures col !in row || row[col].None? ==> r.None?
    ensures col in row && row[col].Some? ==> r == p.number(row[col].value)
  {
    match Get(row, col)
    case Missing => None
    case Null => None
    case Text(s) => p.number(s)
  }

  /** `strptime(row['Timestamp'], ...)`: a KeyError or TypeError (None) unless the field is text. */
  function StartOf(p: Parsers, row: CsvRow): (r: Option<Instant>)
    ensures TimestampColumn !in row || row[TimestampColumn].None? ==> r.None?
    ensures TimestampColumn in row && row[TimestampColumn].Some? ==> r == p.timestamp(row[TimestampColumn].value)
  {
    match Get(row, TimestampColumn)
    case Missing => None
    case Null => None
    case Text(s) => p.timestamp(s)
  }

  const SecondsPerHour: real := 3600.0

  /** `start_time + timedelta(hours=h)`, in seconds. */
  function EndSeconds(start: Instant, hours: real): (e: real)
    ensures hours > 0.0 ==> e > start.seconds as real
    ensures hours <= 0.0 ==> e <= start.seconds as real
  {
    start.seconds as real + hours * SecondsPerHour
  }
}
