/** The reminder service: one pass over the prediction log that alerts on finished batches and
    remembers which ones it has already reported. */
module ReminderService {
  import opened Wrappers
  import Text
  import opened CsvLog

  /** An f-string rendering of `row.get(col, default)`: a None field prints as "None". */
  function FieldText(row: CsvRow, col: string, default: string): (t: string)
    ensures col !in row ==> t == default
    ensures col in row && row[col].None? ==> t == "None"
    ensures col in row && row[col].Some? ==> t == row[col].value
  {
    match GetOr(row, col, default)
    case None => "None"
    case Some(s) => s
  }

  /** `row.get('Timestamp', '').strip()`: None when the field is None (the strip raises and the
      row is skipped), the stripped text otherwise. */
  function TimestampText(row: CsvRow): (t: Option<string>)
    ensures TimestampColumn !in row ==> t == Some([])
    ensures TimestampColumn in row && row[TimestampColumn].None? ==> t.None?
    ensures TimestampColumn in row && row[TimestampColumn].Some? ==> t == Some(Text.Strip(row[TimestampColumn].value))
  {
    match Get(row, TimestampColumn)
    case Missing => Some(Text.Strip([]))
    case Null => None
    case Text(s) => Some(Text.Strip(s))
  }

  /** The id a row is remembered by: timestamp, species and thickness joined by dashes. */
  function JobId(timestamp: string, row: CsvRow): (id: string)
    ensures |id| >= |timestamp| + 2 && id[..|timestamp|] == timestamp && id[|timestamp|] == '-'
  {
    timestamp + "-" + FieldText(row, SpeciesColumn, "unknown") + "-" + FieldText(row, ThicknessColumn, "unknown")
  }

  /** The batch of a row with this timestamp text has ended by `now`; false when the timestamp or
      `Predicted_Hours` does not parse. */
  predicate Done(p: Parsers, timestamp: string, row: CsvRow, now: real)
    ensures Done(p, timestamp, row, now) ==>
      PredictedHoursColumn in row && row[PredictedHoursColumn].Some? && p.timestamp(timestamp).Some?
    ensures (NumberAt(p, row, PredictedHoursColumn).Some? && NumberAt(p, row, PredictedHoursColumn).value > 0.0
             && Done(p, timestamp, row, now)) ==>
      p.timestamp(timestamp).value.seconds as real < now
    ensures (p.timestamp(timestamp).Some? && NumberAt(p, row, PredictedHoursColumn).Some?
             && NumberAt(p, row, PredictedHoursColumn).value <= 0.0 && p.timestamp(timestamp).value.seconds as real <= now) ==>
      Done(p, timestamp, row, now)
  {
    && p.timestamp(timestamp).Some?
    && NumberAt(p, row, PredictedHoursColumn).Some?
    && EndSeconds(p.timestamp(timestamp).value, NumberAt(p, row, PredictedHoursColumn).value) <= now
  }

  /** The id a row alerts under unless it is already remembered: present only for a row whose
      stripped timestamp is non-empty and whose batch has ended by `now`. A row whose timestamp
      is None, empty or unparseable, or whose `Predicted_Hours` is missing or unparseable, has none. */
  function Finished(p: Parsers, row: CsvRow, now: real): (id: Option<string>)
    ensures id.Some? <==>
      TimestampText(row).Some? && TimestampText(row).value != [] && Done(p, TimestampText(row).value, row, now)
    ensures id.Some? ==> id.value == JobId(TimestampText(row).value, row)
  {
    match TimestampText(row)
    case None => None
    case Some(ts) =>
      if ts != [] && Done(p, ts, row, now) then Some(JobId(ts, row)) else None
  }

  /** The state a pass threads from row to row: the remembered ids and the alerts issued. */
  datatype Pass = Pass(notified: set<string>, alerts: seq<string>)

  /** What one row does to the pass. A row without a finished id, or whose id is already
      remembered, changes nothing. Otherwise it raises an alert, and its id is remembered when
      `remember` holds (desktop notifications are off, or the notification went through). */
  function Step(finished: Option<string>, remember: bool, s: Pass): (r: Pass)
    ensures s.notified <= r.notified
    ensures |s.alerts| <= |r.alerts| <= |s.alerts| + 1 && r.alerts[..|s.alerts|] == s.alerts
    ensures |r.alerts| > |s.alerts| ==> r.alerts[|s.alerts|] !in s.notified
    ensures |r.alerts| > |s.alerts| && remember ==> r.alerts[|s.alerts|] in r.notified
    ensures r.notified - s.notified <= ToSet(finished)
    ensures r.notified != s.notified ==> remember
    ensures finished.Some? && finished.value !in s.notified ==> r.alerts == s.alerts + [finished.value]
    ensures finished.None? || finished.value in s.notified ==> r == s
  {
    match finished
    case None => s
    case Some(id) =>
      if id in s.notified then s
      else Pass(if remember then s.notified + {id} else s.notified, s.alerts + [id])
  }

  function ToSet(o: Option<string>): set<string> {
    if o.Some? then {o.value} else {}
  }

  /** Whether row `i`'s id is remembered once it alerts: always without desktop notifications,
      only after a notification that went through with them. */
  predicate Remembers(i: nat, plyerAvailable: bool, notifyOk: nat -> bool)
    ensures !plyerAvailable ==> Remembers(i, plyerAvailable, notifyOk)
    ensures plyerAvailable ==> (Remembers(i, plyerAvailable, notifyOk) <==> notifyOk(i))
  {
    !plyerAvailable || notifyOk(i)
  }

  /** The finished id of every row of the log, in order. */
  function FinishedIds(p: Parsers, rows: seq<CsvRow>, now: real): (f: seq<Option<string>>)
    ensures |f| == |rows|
    ensures forall i :: 0 <= i < |rows| ==> f[i] == Finished(p, rows[i], now)
  {
    seq(|rows|, i requires 0 <= i < |rows| => Finished(p, rows[i], now))
  }

  /** The pass after the first `n` rows, given each row's finished id. */
  function Scan(finished: seq<Option<string>>, plyerAvailable: bool, notifyOk: nat -> bool,
                start: set<string>, n: nat): (r: Pass)
    requires n <= |finished|
    ensures |r.alerts| <= n
  {
    if n == 0 then Pass(start, [])
    else Step(finished[n - 1], Remembers(n - 1, plyerAvailable, notifyOk),
              Scan(finished, plyerAvailable, notifyOk, start, n - 1))
  }

  /** Nothing is ever forgotten. */
  lemma {:induction false} ScanGrows(finished: seq<Option<string>>, plyerAvailable: bool,
                                     notifyOk: nat -> bool, start: set<string>, n: nat)
    requires n <= |finished|
    ensures start <= Scan(finished, plyerAvailable, notifyOk, start, n).notified
  {
    if n > 0 {
      ScanGrows(finished, plyerAvailable, notifyOk, start, n - 1);
    }
  }

  /** Every newly remembered id is the finished id of a row of the prefix whose id is remembered
      once it alerts. */
  lemma {:induction false} ScanAddsOnlyFinished(finished: seq<Option<string>>, plyerAvailable: bool,
                                                notifyOk: nat -> bool, start: set<string>, n: nat)
    requires n <= |finished|
    ensures forall id :: id in Scan(finished, plyerAvailable, notifyOk, start, n).notified && id !in start ==>
      exists i :: 0 <= i < n && finished[i] == Some(id) && Remembers(i, plyerAvailable, notifyOk)
  {
    if n > 0 {
      ScanAddsOnlyFinished(finished, plyerAvailable, notifyOk, start, n - 1);
      var before := Scan(finished, plyerAvailable, notifyOk, start, n - 1);
      var after := Scan(finished, plyerAvailable, notifyOk, start, n);
      forall id | id in after.notified && id !in start
        ensures exists i :: 0 <= i < n && finished[i] == Some(id) && Remembers(i, plyerAvailable, notifyOk)
      {
        if id !in before.notified {
          assert id in ToSet(finished[n - 1]);
          assert finished[n - 1] == Some(id) && Remembers(n - 1, plyerAvailable, notifyOk);
        }
      }
    }
  }

  /** Every alert is for an id that was not remembered before the pass: a remembered job never
      alerts again. */
  lemma {:induction false} AlertsAreNew(finished: seq<Option<string>>, plyerAvailable: bool,
                                        notifyOk: nat -> bool, start: set<string>, n: nat)
    requires n <= |finished|
    ensures forall id :: id in Scan(finished, plyerAvailable, notifyOk, start, n).alerts ==> id !in start
  {
    if n > 0 {
      AlertsAreNew(finished, plyerAvailable, notifyOk, start, n - 1);
      ScanGrows(finished, plyerAvailable, notifyOk, start, n - 1);
      var before := Scan(finished, plyerAvailable, notifyOk, start, n - 1);
      var after := Scan(finished, plyerAvailable, notifyOk, start, n);
      forall id | id in after.alerts ensures id !in start {
        var m :| 0 <= m < |after.alerts| && after.alerts[m] == id;
        if m < |before.alerts| {
          assert before.alerts[m] == id;
        } else {
          assert id !in before.notified;
        }
      }
    }
  }

  /** Every alert is the finished id of a row of the prefix. */
  lemma {:induction false} AlertsAreFinished(finished: seq<Option<string>>, plyerAvailable: bool,
                                             notifyOk: nat -> bool, start: set<string>, n: nat)
    requires n <= |finished|
    ensures forall a :: 0 <= a < |Scan(finished, plyerAvailable, notifyOk, start, n).alerts| ==>
      exists i :: 0 <= i < n && finished[i] == Some(Scan(finished, plyerAvailable, notifyOk, start, n).alerts[a])
  {
    if n > 0 {
      AlertsAreFinished(finished, plyerAvailable, notifyOk, start, n - 1);
      var before := Scan(finished, plyerAvailable, notifyOk, start, n - 1);
      var after := Scan(finished, plyerAvailable, notifyOk, start, n);
      forall a | 0 <= a < |after.alerts| ensures exists i :: 0 <= i < n && finished[i] == Some(after.alerts[a]) {
        if a < |before.alerts| {
          var i :| 0 <= i < n - 1 && finished[i] == Some(before.alerts[a]);
          assert after.alerts[a] == before.alerts[a];
        } else {
          assert finished[n - 1] == Some(after.alerts[a]);
        }
      }
    } else {
      assert Scan(finished, plyerAvailable, notifyOk, start, n).alerts == [];
    }
  }

  /** Every alert of a pass over the log is the finished id of one of its rows. */
  lemma AlertsComeFromRows(p: Parsers, rows: seq<CsvRow>, now: real, plyerAvailable: bool,
                           notifyOk: nat -> bool, start: set<string>)
    ensures var alerts := Scan(FinishedIds(p, rows, now), plyerAvailable, notifyOk, start, |rows|).alerts;
      forall a :: 0 <= a < |alerts| ==> exists i :: 0 <= i < |rows| && Finished(p, rows[i], now) == Some(alerts[a])
  {
    var finished := FinishedIds(p, rows, now);
    AlertsAreFinished(finished, plyerAvailable, notifyOk, start, |rows|);
  }

  /** Without desktop notifications, every finished id of the prefix ends up remembered. */
  lemma {:induction false} ScanRemembersAllFinished(finished: seq<Option<string>>, notifyOk: nat -> bool,
                                                    start: set<string>, n: nat)
    requires n <= |finished|
    ensures forall i :: 0 <= i < n && finished[i].Some? ==>
      finished[i].value in Scan(finished, false, notifyOk, start, n).notified
  {
    if n > 0 {
      ScanRemembersAllFinished(finished, notifyOk, start, n - 1);
      var before := Scan(finished, false, notifyOk, start, n - 1);
      var after := Scan(finished, false, notifyOk, start, n);
      assert before.notified <= after.notified;
      if finished[n - 1].Some? {
        assert finished[n - 1].value in after.notified;
      }
    }
  }

  /** Without desktop notifications, a pass never alerts twice for the same id. */
  lemma {:induction false} AlertsDistinctWithoutPlyer(finished: seq<Option<string>>, notifyOk: nat -> bool,
                                                      start: set<string>, n: nat)
    requires n <= |finished|
    ensures forall id :: id in Scan(finished, false, notifyOk, start, n).alerts ==>
      id in Scan(finished, false, notifyOk, start, n).notified
    ensures forall a, b :: 0 <= a < b < |Scan(finished, false, notifyOk, start, n).alerts| ==>
      Scan(finished, false, notifyOk, start, n).alerts[a] != Scan(finished, false, notifyOk, start, n).alerts[b]
  {
    if n > 0 {
      AlertsDistinctWithoutPlyer(finished, notifyOk, start, n - 1);
      var before := Scan(finished, false, notifyOk, start, n - 1);
      var after := Scan(finished, false, notifyOk, start, n);
      if |after.alerts| > |before.alerts| {
        var id := after.alerts[|before.alerts|];
        assert after.alerts == before.alerts + [id];
        assert id !in before.notified;
        forall a | 0 <= a < |before.alerts| ensures after.alerts[a] != id {
          assert after.alerts[a] == before.alerts[a];
          assert before.alerts[a] in before.alerts;
          assert before.alerts[a] in before.notified;
        }
        forall a, b | 0 <= a < b < |after.alerts| ensures after.alerts[a] != after.alerts[b] {
          if b < |before.alerts| {
            assert after.alerts[a] == before.alerts[a] && after.alerts[b] == before.alerts[b];
          }
        }
      } else {
        assert after.alerts == before.alerts;
      }
    }
  }

  /** The service's memory across passes. */
  class Reminder {
    var notifiedJobs: set<string>
    const plyerAvailable: bool

    constructor(plyerAvailable: bool)
      ensures notifiedJobs == {} && this.plyerAvailable == plyerAvailable
    {
      this.plyerAvailable := plyerAvailable;
      notifiedJobs := {};
    }

    /** The body of the scan for row `i`: the skip rules in the order the service applies them,
        then the alert and, unless a notification failed, the new remembered id. */
    method CheckRow(p: Parsers, row: CsvRow, i: nat, now: real, notifyOk: nat -> bool, alertsBefore: seq<string>)
      returns (alerts: seq<string>)
      modifies this
      ensures Pass(notifiedJobs, alerts)
        == Step(Finished(p, row, now), Remembers(i, plyerAvailable, notifyOk), Pass(old(notifiedJobs), alertsBefore))
    {
      alerts := alertsBefore;
      var timestamp := TimestampText(row);
      if timestamp.None? {
        return;
      }
      var ts := timestamp.value;
      var jobId := JobId(ts, row);
      if ts == [] {
        return;
      }
      if jobId in notifiedJobs {
        return;
      }
      if !Done(p, ts, row, now) {
        return;
      }
      alerts := alerts + [jobId];
      if plyerAvailable {
        if notifyOk(i) {
          notifiedJobs := notifiedJobs + {jobId};
        }
      } else {
        notifiedJobs := notifiedJobs + {jobId};
      }
    }

    /** One check of the log. A missing or unreadable log changes nothing. Otherwise every row is
        stepped in order and the remembered ids and the alerts are those of `Scan`. */
    method CheckJobsForNotification(p: Parsers, log: Option<seq<CsvRow>>, now: real, notifyOk: nat -> bool)
      returns (alerts: seq<string>)
      modifies this
      ensures log.None? ==> notifiedJobs == old(notifiedJobs) && alerts == []
      ensures log.Some? ==>
        Pass(notifiedJobs, alerts)
          == Scan(FinishedIds(p, log.value, now), plyerAvailable, notifyOk, old(notifiedJobs), |log.value|)
      ensures old(notifiedJobs) <= notifiedJobs
      ensures forall id :: id in alerts ==> id !in old(notifiedJobs)
      ensures log.Some? ==>
        forall a :: 0 <= a < |alerts| ==> exists i :: 0 <= i < |log.value| && Finished(p, log.value[i], now) == Some(alerts[a])
    {
      alerts := [];
      if log.None? {
        return;
      }
      var rows := log.value;
      ghost var start := notifiedJobs;
      ghost var finished := FinishedIds(p, rows, now);
      for i := 0 to |rows|
        invariant Pass(notifiedJobs, alerts) == Scan(finished, plyerAvailable, notifyOk, start, i)
      {
        alerts := CheckRow(p, rows[i], i, now, notifyOk, alerts);
      }
      ScanGrows(finished, plyerAvailable, notifyOk, start, |rows|);
      AlertsAreNew(finished, plyerAvailable, notifyOk, start, |rows|);
      AlertsComeFromRows(p, rows, now, plyerAvailable, notifyOk, start);
    }
  }
}
