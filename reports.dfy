/**
 * The rows of the tracker's run report (data_report): one record per
 * write_report call, stamped with the clock and the two run counters.
 */
module Reports {
  import opened Wrappers
  import Text

  /** What `datetime.now()` contributes to a record: the date as printed, the hour and the minute. */
  datatype Instant = Instant(date: string, hour: nat, minute: nat)

  /** A status message together with the instant it is written at. */
  datatype Entry = Entry(status: string, at: Instant)

  /** report_structure: the columns Runtime, Date, Time, Status and ISS Passes. */
  datatype Report = Report(runtime: nat, date: string, time: string, status: string, issPasses: nat)

  const ProcessStart: string := "Process START"
  const ProcessEnd: string := "Process END"
  const NotificationSent: string := "Success: Notification sent"
  const PassedOverhead: string := "ISS passed overhead"

  /** The record write_report builds for `e` while the counters are `runs` and `passes`. */
  function MakeReport(runs: nat, passes: nat, e: Entry): Report
  {
    Report(runs, e.at.date, Text.FormatTime(e.at.hour, e.at.minute), e.status, passes)
  }

  /**
   * A record carries the counters it was written under and its message,
   * and, for any instant a clock shows, a five-character HH:MM time that
   * reads back as the instant's hour and minute.
   */
  lemma RecordFields(runs: nat, passes: nat, e: Entry)
    requires e.at.hour < 24 && e.at.minute < 60
    ensures var r := MakeReport(runs, passes, e);
      r.runtime == runs && r.issPasses == passes && r.status == e.status && r.date == e.at.date &&
      |r.time| == 5 && r.time[2] == ':' &&
      Text.ParseTime(r.time) == Some((e.at.hour, e.at.minute))
  {
    Text.TimeRoundTrip(e.at.hour, e.at.minute);
  }

  /** The records written for `entries`, in order, while the counters stay at `runs` and `passes`. */
  function ReportsFor(runs: nat, passes: nat, entries: seq<Entry>): (rs: seq<Report>)
    ensures |rs| == |entries|
  {
    seq(|entries|, k requires 0 <= k < |entries| => MakeReport(runs, passes, entries[k]))
  }

  /** Writing two batches of entries writes the records of both, in order. */
  lemma ReportsForAppend(runs: nat, passes: nat, a: seq<Entry>, b: seq<Entry>)
    ensures ReportsFor(runs, passes, a + b) == ReportsFor(runs, passes, a) + ReportsFor(runs, passes, b)
  {
    var l, r := ReportsFor(runs, passes, a + b), ReportsFor(runs, passes, a) + ReportsFor(runs, passes, b);
    forall k | 0 <= k < |l|
      ensures l[k] == r[k]
    {
      if k < |a| {
        assert (a + b)[k] == a[k];
      } else {
        assert (a + b)[k] == b[k - |a|];
      }
    }
  }
}
