/**
 * The script itself: its globals as the fields of one Tracker object, and
 * write_report, connect_to_api, the three checks and the `while` loop as
 * methods that update them in place. Each method is proved to leave the
 * state that the matching function of module Rounds describes.
 */
module IssTrack {
  import opened Wrappers
  import opened Reports
  import opened Api
  import opened Rounds
  import Text
  import Visibility

  class Tracker {
    /** Home and the recipients, read from the environment at start-up. */
    const cfg: Config

    var numOfRuns: nat
    var numOfPasses: nat
    var issLatitude: Option<real>
    var issLongitude: Option<real>
    var cloudCoverage: Option<int>
    /** data_report: the in-memory list that is rewritten to the CSV file after every append. */
    var dataReport: seq<Report>
    /** The messages handed to the mail session, in order. */
    var outbox: seq<Mail>

    /** The fields as one value of the specification's state. */
    function State(): Globals
      reads this
    {
      Globals(numOfRuns, numOfPasses, issLatitude, issLongitude, cloudCoverage, dataReport, outbox)
    }

    constructor (cfg: Config)
      ensures this.cfg == cfg && State() == Initial
    {
      this.cfg := cfg;
      numOfRuns, numOfPasses := 0, 0;
      issLatitude, issLongitude, cloudCoverage := None, None, None;
      dataReport, outbox := [], [];
    }

    /** write_report: append one record stamped with `now` and the current counters. */
    method WriteReport(message: string, now: Instant)
      modifies this`dataReport
      ensures State() == Logged(old(State()), [Entry(message, now)])
      ensures dataReport == old(dataReport) + [MakeReport(numOfRuns, numOfPasses, Entry(message, now))]
    {
      LoggedOne(State(), Entry(message, now));
      dataReport := dataReport + [MakeReport(numOfRuns, numOfPasses, Entry(message, now))];
    }

    /**
     * connect_to_api: up to max_retries attempts; the first payload is
     * returned at once, each caught failure writes one report, another
     * exception propagates, and running out of attempts gives None.
     */
    method ConnectToApi<T>(apiName: string, maxRetries: int, attempts: seq<Attempt<T>>) returns (fetched: Fetched<T>)
      requires Budget(maxRetries) <= |attempts|
      modifies this`dataReport
      ensures State() == Fetch(old(State()), apiName, maxRetries, attempts).0
      ensures fetched == Fetch(old(State()), apiName, maxRetries, attempts).1
    {
      ghost var start := State();
      var n := Budget(maxRetries);
      for attempt := 0 to n
        invariant forall j :: 0 <= j < attempt ==> attempts[j].Caught()
        invariant State() == Logged(start, FailureLog(apiName, attempts[..attempt]))
      {
        var outcome := attempts[attempt];
        if !outcome.Caught() {
          RetryStopsAt(apiName, maxRetries, attempts, attempt);
          match outcome
          case Success(data) => return Data(data);
          case Other(error) => return Raised(error);
        }
        // The except branch for the caught failure writes its report.
        var entry := FailureEntry(apiName, outcome);
        WriteReport(entry.status, entry.at);
        FailureLogStep(apiName, attempts, attempt);
        LoggedTwice(start, FailureLog(apiName, attempts[..attempt]), [FailureEntry(apiName, outcome)]);
      }
      RetryGivesUp(apiName, maxRetries, attempts);
      return NoData;
    }

    /** check_iss_overhead; None when the process would end with an exception. */
    method CheckIssOverhead(attempts: seq<Attempt<IssPosition>>) returns (issAbove: Option<bool>)
      requires IssRetries <= |attempts|
      modifies this`dataReport, this`issLatitude, this`issLongitude
      ensures State() == Rounds.CheckIssOverhead(cfg, old(State()), attempts).0
      ensures issAbove == Rounds.CheckIssOverhead(cfg, old(State()), attempts).1
    {
      var issData := ConnectToApi("ISS API", IssRetries, attempts);
      if !issData.Data? {
        return None;
      }
      issLatitude := Some(issData.payload.latitude);
      issLongitude := Some(issData.payload.longitude);
      issAbove := Some(Visibility.IsOverhead(cfg.myLat, cfg.myLong, issData.payload.latitude, issData.payload.longitude));
    }

    /** check_if_dark; None when the process would end with an exception. */
    method CheckIfDark(attempts: seq<Attempt<SunTimes>>, currentHour: nat) returns (isDark: Option<bool>)
      requires DefaultRetries <= |attempts|
      modifies this`dataReport
      ensures State() == Rounds.CheckIfDark(old(State()), attempts, currentHour).0
      ensures isDark == Rounds.CheckIfDark(old(State()), attempts, currentHour).1
    {
      var sunData := ConnectToApi("Sunlight API", DefaultRetries, attempts);
      if !sunData.Data? {
        return None;
      }
      var sunriseHour := Text.ExtractHour(sunData.payload.sunrise);
      var sunsetHour := Text.ExtractHour(sunData.payload.sunset);
      if sunriseHour.None? || sunsetHour.None? {
        return None;
      }
      isDark := Some(Visibility.IsDark(currentHour, sunriseHour.value, sunsetHour.value));
    }

    /** check_not_cloudy; None when the process would end with an exception. */
    method CheckNotCloudy(attempts: seq<Attempt<int>>) returns (clearSky: Option<bool>)
      requires DefaultRetries <= |attempts|
      modifies this`dataReport, this`cloudCoverage
      ensures State() == Rounds.CheckNotCloudy(old(State()), attempts).0
      ensures clearSky == Rounds.CheckNotCloudy(old(State()), attempts).1
    {
      var cloudData := ConnectToApi("Cloud Cover API", DefaultRetries, attempts);
      if !cloudData.Data? {
        return None;
      }
      cloudCoverage := Some(cloudData.payload);
      clearSky := Some(Visibility.IsClearSky(cloudData.payload));
    }

    /** The `for recipient in RECIPIENTS` loop: one message per recipient, in order. */
    method NotifyRecipients()
      modifies this`outbox
      ensures outbox == old(outbox) + Mails(cfg.recipients, issLatitude, issLongitude)
    {
      for i := 0 to |cfg.recipients|
        invariant outbox == old(outbox) + Mails(cfg.recipients[..i], issLatitude, issLongitude)
      {
        outbox := outbox + [Mail(cfg.recipients[i], issLatitude, issLongitude)];
        assert cfg.recipients[..i + 1] == cfg.recipients[..i] + [cfg.recipients[i]];
      }
      assert cfg.recipients[..|cfg.recipients|] == cfg.recipients;
    }

    /** Lines 169-171: the three checks in order; None when one of them ends the process. */
    method Evaluate(r: Round) returns (answers: Option<Checks>)
      requires r.Supplied()
      modifies this`issLatitude, this`issLongitude, this`cloudCoverage, this`dataReport
      ensures State() == Rounds.Evaluate(cfg, old(State()), r).0
      ensures answers == Rounds.Evaluate(cfg, old(State()), r).1
    {
      var issAbove := CheckIssOverhead(r.issAttempts);
      if issAbove.None? {
        return None;
      }
      var isDark := CheckIfDark(r.sunAttempts, r.currentHour);
      if isDark.None? {
        return None;
      }
      var clearSky := CheckNotCloudy(r.cloudAttempts);
      if clearSky.None? {
        return None;
      }
      answers := Some(Checks(issAbove.value, isDark.value, clearSky.value));
    }

    /**
     * Lines 172-199: with all three answers yes, mail every recipient,
     * count the pass and report success; with only the station overhead,
     * report that; otherwise do nothing.
     */
    method Conclude(c: Checks, at: Instant)
      modifies this`numOfPasses, this`dataReport, this`outbox
      ensures State() == Rounds.Conclude(cfg, old(State()), c, at)
    {
      if c.issAbove && c.isDark && c.clearSky {
        NotifyRecipients();
        numOfPasses := numOfPasses + 1;
        WriteReport(NotificationSent, at);
      } else if c.issAbove {
        WriteReport(PassedOverhead, at);
      }
    }

    /** One iteration of the `while` loop; false when an exception would end the process. */
    method RunRound(r: Round) returns (completed: bool)
      requires r.Supplied()
      modifies this`numOfRuns, this`numOfPasses, this`issLatitude, this`issLongitude,
               this`cloudCoverage, this`dataReport, this`outbox
      ensures State() == Rounds.RunRound(cfg, old(State()), r).0
      ensures completed == Rounds.RunRound(cfg, old(State()), r).1
    {
      ghost var g := State();
      RoundSplits(cfg, g, r);
      ghost var ev := Rounds.Evaluate(cfg, g.(runs := g.runs + 1), r);
      numOfRuns := numOfRuns + 1;
      assert State() == g.(runs := g.runs + 1);
      var answers := Evaluate(r);
      assert State() == ev.0 && answers == ev.1;
      if answers.None? {
        return false;
      }
      Conclude(answers.value, r.reportAt);
      completed := true;
    }

    /**
     * The `while` loop of lines 164-202 over the rounds the outside world
     * supplies: it stops once more than NUMBER_OF_ISS_PASSES passes are
     * counted, when an exception would end the process, or when the rounds
     * run out.
     */
    method Poll(rounds: seq<FullRound>) returns (exit: Exit)
      modifies this`numOfRuns, this`numOfPasses, this`issLatitude, this`issLongitude,
               this`cloudCoverage, this`dataReport, this`outbox
      ensures State() == Loop(cfg, old(State()), rounds).0
      ensures exit == Loop(cfg, old(State()), rounds).1
    {
      ghost var start := State();
      var i := 0;
      while numOfPasses <= NumberOfIssPasses && i < |rounds|
        invariant 0 <= i <= |rounds|
        invariant Loop(cfg, State(), rounds[i..]) == Loop(cfg, start, rounds)
      {
        LoopStep(cfg, State(), rounds, i);
        var completed := RunRound(rounds[i]);
        if !completed {
          return Crashed;
        }
        i := i + 1;
      }
      LoopStops(cfg, State(), rounds, i);
      exit := if numOfPasses <= NumberOfIssPasses then Running else Finished;
    }

    /** The script from line 163 on: "Process START", the loop, and "Process END" once it finishes. */
    method Run(startAt: Instant, rounds: seq<FullRound>, endAt: Instant) returns (exit: Exit)
      requires State() == Initial
      modifies this
      ensures State() == Script(cfg, startAt, rounds, endAt).0
      ensures exit == Script(cfg, startAt, rounds, endAt).1
    {
      WriteReport(ProcessStart, startAt);
      exit := Poll(rounds);
      if exit == Finished {
        WriteReport(ProcessEnd, endAt);
      }
    }
  }
}
