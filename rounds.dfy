/**
 * The tracker's script as a specification over its global state: the
 * three checks, one round of the top-level `while` loop and the whole run
 * from "Process START" to "Process END". The class in module IssTrack
 * carries out these steps in place; the lemmas here state what a round
 * and a run promise.
 */
module Rounds {
  import opened Wrappers
  import opened Reports
  import opened Api
  import Text
  import Visibility

  /** NUMBER_OF_ISS_PASSES: the run ends once more passes than this have been notified. */
  const NumberOfIssPasses: nat := 2

  /** max_retries of the position fetch, and the default used by the other two. */
  const IssRetries: int := 10
  const DefaultRetries: int := 15

  /** Home (MY_LAT, MY_LONG) and the addresses every notification goes to. */
  datatype Config = Config(myLat: real, myLong: real, recipients: seq<string>)

  /** The decoded payloads of the three APIs. */
  datatype IssPosition = IssPosition(latitude: real, longitude: real)
  datatype SunTimes = SunTimes(sunrise: string, sunset: string)

  /**
   * Everything the outside world supplies to one round: the outcome of
   * each attempt of the three fetches, the local hour, and the instant the
   * round's closing report is written at.
   */
  datatype Round = Round(
    issAttempts: seq<Attempt<IssPosition>>,
    sunAttempts: seq<Attempt<SunTimes>>,
    currentHour: nat,
    cloudAttempts: seq<Attempt<int>>,
    reportAt: Instant)
  {
    /** One outcome for every attempt the three fetches may make. */
    predicate Supplied()
    {
      IssRetries <= |issAttempts| && DefaultRetries <= |sunAttempts| && DefaultRetries <= |cloudAttempts|
    }
  }

  /** A round that supplies an outcome for every attempt its fetches may make. */
  type FullRound = r: Round | r.Supplied()
    witness Round(seq(IssRetries, k => Other("")), seq(DefaultRetries, k => Other("")), 0,
                  seq(DefaultRetries, k => Other("")), Instant("", 0, 0))

  /** One message sent through the mail session: its recipient and the coordinates it quotes. */
  datatype Mail = Mail(recipient: string, issLatitude: Option<real>, issLongitude: Option<real>)

  /** The script's globals, the report list and the messages sent. */
  datatype Globals = Globals(
    runs: nat,
    passes: nat,
    issLatitude: Option<real>,
    issLongitude: Option<real>,
    cloudCoverage: Option<int>,
    reports: seq<Report>,
    outbox: seq<Mail>)

  const Initial: Globals := Globals(0, 0, None, None, None, [], [])

  /** How a run stops: the pass budget is exceeded, an exception ends the process, or it is still polling. */
  datatype Exit = Finished | Crashed | Running

  /** write_report for each entry in turn: the report list grows by one record per entry. */
  function Logged(g: Globals, entries: seq<Entry>): Globals
  {
    g.(reports := g.reports + ReportsFor(g.runs, g.passes, entries))
  }

  lemma ReportsForThree(rs: seq<Report>, runs: nat, passes: nat, a: seq<Entry>, b: seq<Entry>, c: seq<Entry>)
    ensures rs + ReportsFor(runs, passes, a) + ReportsFor(runs, passes, b) + ReportsFor(runs, passes, c)
         == rs + ReportsFor(runs, passes, a + b + c)
  {
    ReportsForAppend(runs, passes, a, b);
    ReportsForAppend(runs, passes, a + b, c);
    var ra, rb, rc := ReportsFor(runs, passes, a), ReportsFor(runs, passes, b), ReportsFor(runs, passes, c);
    assert rs + ra + rb + rc == rs + (ra + rb + rc);
  }

  /** One write_report call appends exactly one record, written under the current counters. */
  lemma LoggedOne(g: Globals, e: Entry)
    ensures Logged(g, [e]) == g.(reports := g.reports + [MakeReport(g.runs, g.passes, e)])
  {
    assert ReportsFor(g.runs, g.passes, [e]) == [MakeReport(g.runs, g.passes, e)];
  }

  /** Logging twice is logging the concatenation, and nothing but the report list changes. */
  lemma LoggedTwice(g: Globals, a: seq<Entry>, b: seq<Entry>)
    ensures Logged(Logged(g, a), b) == Logged(g, a + b)
  {
    ReportsForAppend(g.runs, g.passes, a, b);
    var ra, rb := ReportsFor(g.runs, g.passes, a), ReportsFor(g.runs, g.passes, b);
    assert (g.reports + ra) + rb == g.reports + (ra + rb);
  }

  /** A check leaves the counters and the sent messages alone. */
  predicate Quiet(g: Globals, h: Globals)
  {
    h.runs == g.runs && h.passes == g.passes && h.outbox == g.outbox
  }

  /** connect_to_api with its reports written into the globals. */
  function Fetch<T>(g: Globals, apiName: string, maxRetries: int, attempts: seq<Attempt<T>>): (Globals, Fetched<T>)
    requires Budget(maxRetries) <= |attempts|
  {
    var r := Retry(apiName, maxRetries, attempts);
    (Logged(g, r.log), r.result)
  }

  /**
   * check_iss_overhead: fetch the position, store it in the globals, test
   * it. None stands for the exception that ends the process when the fetch
   * gives no payload.
   */
  function CheckIssOverhead(cfg: Config, g: Globals, attempts: seq<Attempt<IssPosition>>): (Globals, Option<bool>)
    requires IssRetries <= |attempts|
  {
    var f := Fetch(g, "ISS API", IssRetries, attempts);
    match f.1
    case Data(p) =>
      (f.0.(issLatitude := Some(p.latitude), issLongitude := Some(p.longitude)),
       Some(Visibility.IsOverhead(cfg.myLat, cfg.myLong, p.latitude, p.longitude)))
    case _ => (f.0, None)
  }

  /**
   * The position check answers exactly when its fetch delivers a payload;
   * it then stores the coordinates and answers whether they are overhead.
   * It writes the fetch's failure reports and nothing else.
   */
  lemma IssOverheadEffect(cfg: Config, g: Globals, attempts: seq<Attempt<IssPosition>>)
    requires IssRetries <= |attempts|
    ensures var res, fetched := CheckIssOverhead(cfg, g, attempts), Retry("ISS API", IssRetries, attempts);
      Quiet(g, res.0) && res.0.reports == g.reports + ReportsFor(g.runs, g.passes, fetched.log) &&
      res.0.cloudCoverage == g.cloudCoverage &&
      (res.1.Some? <==> fetched.result.Data?) &&
      (res.1.Some? ==>
        res.0.issLatitude == Some(fetched.result.payload.latitude) &&
        res.0.issLongitude == Some(fetched.result.payload.longitude) &&
        res.1.value == Visibility.IsOverhead(cfg.myLat, cfg.myLong, fetched.result.payload.latitude, fetched.result.payload.longitude))
  {
  }

  /** check_if_dark: None also when a sunrise or sunset stamp has no readable hour. */
  function CheckIfDark(g: Globals, attempts: seq<Attempt<SunTimes>>, currentHour: nat): (Globals, Option<bool>)
    requires DefaultRetries <= |attempts|
  {
    var f := Fetch(g, "Sunlight API", DefaultRetries, attempts);
    if !f.1.Data? then (f.0, None)
    else
      var sunrise, sunset := Text.ExtractHour(f.1.payload.sunrise), Text.ExtractHour(f.1.payload.sunset);
      if sunrise.None? || sunset.None? then (f.0, None)
      else (f.0, Some(Visibility.IsDark(currentHour, sunrise.value, sunset.value)))
  }

  /**
   * The darkness check answers exactly when its fetch delivers a payload
   * whose sunrise and sunset both carry an hour, and answers IsDark of
   * those hours. It writes the fetch's failure reports and nothing else.
   */
  lemma DarkEffect(g: Globals, attempts: seq<Attempt<SunTimes>>, currentHour: nat)
    requires DefaultRetries <= |attempts|
    ensures var res, fetched := CheckIfDark(g, attempts, currentHour), Retry("Sunlight API", DefaultRetries, attempts);
      Quiet(g, res.0) && res.0.reports == g.reports + ReportsFor(g.runs, g.passes, fetched.log) &&
      res.0.cloudCoverage == g.cloudCoverage &&
      res.0.issLatitude == g.issLatitude && res.0.issLongitude == g.issLongitude &&
      (res.1.Some? <==>
        (fetched.result.Data? &&
         Text.ExtractHour(fetched.result.payload.sunrise).Some? && Text.ExtractHour(fetched.result.payload.sunset).Some?)) &&
      (res.1.Some? ==>
        res.1.value == Visibility.IsDark(currentHour,
          Text.ExtractHour(fetched.result.payload.sunrise).value, Text.ExtractHour(fetched.result.payload.sunset).value))
  {
  }

  /** check_not_cloudy: fetch the cloud cover, store it in the globals, test it. */
  function CheckNotCloudy(g: Globals, attempts: seq<Attempt<int>>): (Globals, Option<bool>)
    requires DefaultRetries <= |attempts|
  {
    var f := Fetch(g, "Cloud Cover API", DefaultRetries, attempts);
    match f.1
    case Data(c) => (f.0.(cloudCoverage := Some(c)), Some(Visibility.IsClearSky(c)))
    case _ => (f.0, None)
  }

  /**
   * The cloud check answers exactly when its fetch delivers a payload; it
   * then stores the coverage and answers whether the sky is clear. It
   * writes the fetch's failure reports and nothing else.
   */
  lemma NotCloudyEffect(g: Globals, attempts: seq<Attempt<int>>)
    requires DefaultRetries <= |attempts|
    ensures var res, fetched := CheckNotCloudy(g, attempts), Retry("Cloud Cover API", DefaultRetries, attempts);
      Quiet(g, res.0) && res.0.reports == g.reports + ReportsFor(g.runs, g.passes, fetched.log) &&
      res.0.issLatitude == g.issLatitude && res.0.issLongitude == g.issLongitude &&
      (res.1.Some? <==> fetched.result.Data?) &&
      (res.1.Some? ==>
        res.0.cloudCoverage == Some(fetched.result.payload) &&
        res.1.value == Visibility.IsClearSky(fetched.result.payload))
  {
  }

  /** One message per recipient, in order, each quoting the stored coordinates. */
  function Mails(recipients: seq<string>, lat: Option<real>, long: Option<real>): (ms: seq<Mail>)
    ensures |ms| == |recipients|
    ensures forall k :: 0 <= k < |ms| ==> ms[k] == Mail(recipients[k], lat, long)
  {
    seq(|recipients|, k requires 0 <= k < |recipients| => Mail(recipients[k], lat, long))
  }

  /** The three answers of a round. */
  datatype Checks = Checks(issAbove: bool, isDark: bool, clearSky: bool)
  {
    predicate All()
    {
      issAbove && isDark && clearSky
    }
  }

  /**
   * What a round observes, stated without the globals: the three answers
   * when every fetch delivers a payload and both sun stamps carry an hour,
   * None otherwise.
   */
  function Observe(cfg: Config, r: Round): Option<Checks>
    requires r.Supplied()
  {
    var iss := Retry("ISS API", IssRetries, r.issAttempts).result;
    var sun := Retry("Sunlight API", DefaultRetries, r.sunAttempts).result;
    var cloud := Retry("Cloud Cover API", DefaultRetries, r.cloudAttempts).result;
    if iss.Data? && sun.Data? && cloud.Data? then
      match (Text.ExtractHour(sun.payload.sunrise), Text.ExtractHour(sun.payload.sunset))
      case (Some(sunrise), Some(sunset)) =>
        Some(Checks(
          Visibility.IsOverhead(cfg.myLat, cfg.myLong, iss.payload.latitude, iss.payload.longitude),
          Visibility.IsDark(r.currentHour, sunrise, sunset),
          Visibility.IsClearSky(cloud.payload)))
      case _ => None
    else None
  }

  /** The failure reports of a completed round, fetch by fetch. */
  function RoundLog(r: Round): seq<Entry>
    requires r.Supplied()
  {
    Retry("ISS API", IssRetries, r.issAttempts).log
      + Retry("Sunlight API", DefaultRetries, r.sunAttempts).log
      + Retry("Cloud Cover API", DefaultRetries, r.cloudAttempts).log
  }

  /** Lines 169-171: the three checks in order, the first exception ending the process. */
  function Evaluate(cfg: Config, g: Globals, r: Round): (Globals, Option<Checks>)
    requires r.Supplied()
  {
    var iss := CheckIssOverhead(cfg, g, r.issAttempts);
    if iss.1.None? then (iss.0, None)
    else
      var sun := CheckIfDark(iss.0, r.sunAttempts, r.currentHour);
      if sun.1.None? then (sun.0, None)
      else
        var cloud := CheckNotCloudy(sun.0, r.cloudAttempts);
        if cloud.1.None? then (cloud.0, None)
        else (cloud.0, Some(Checks(iss.1.value, sun.1.value, cloud.1.value)))
  }

  /**
   * The answers of the three checks are exactly Observe's; the counters
   * and the sent messages are untouched, earlier reports are kept, and a
   * round that gets its answers has written exactly the failure reports of
   * its three fetches.
   */
  lemma EvaluateObserves(cfg: Config, g: Globals, r: Round)
    requires r.Supplied()
    ensures var res := Evaluate(cfg, g, r);
      Quiet(g, res.0) && res.1 == Observe(cfg, r) &&
      |g.reports| <= |res.0.reports| && res.0.reports[..|g.reports|] == g.reports &&
      (res.1.Some? ==> res.0.reports == g.reports + ReportsFor(g.runs, g.passes, RoundLog(r)))
    ensures var res, iss, cloud := Evaluate(cfg, g, r), Retry("ISS API", IssRetries, r.issAttempts).result,
                                   Retry("Cloud Cover API", DefaultRetries, r.cloudAttempts).result;
      res.1.Some? ==>
        iss.Data? && cloud.Data? &&
        res.0.issLatitude == Some(iss.payload.latitude) && res.0.issLongitude == Some(iss.payload.longitude) &&
        res.0.cloudCoverage == Some(cloud.payload)
  {
    var iss := CheckIssOverhead(cfg, g, r.issAttempts);
    IssOverheadEffect(cfg, g, r.issAttempts);
    if iss.1.Some? {
      var sun := CheckIfDark(iss.0, r.sunAttempts, r.currentHour);
      DarkEffect(iss.0, r.sunAttempts, r.currentHour);
      if sun.1.Some? {
        NotCloudyEffect(sun.0, r.cloudAttempts);
        ReportsForThree(g.reports, g.runs, g.passes, Retry("ISS API", IssRetries, r.issAttempts).log,
                        Retry("Sunlight API", DefaultRetries, r.sunAttempts).log,
                        Retry("Cloud Cover API", DefaultRetries, r.cloudAttempts).log);
      }
    }
  }

  /**
   * Lines 172-199: with all three answers yes, mail every recipient, count
   * the pass and report success; with only the station overhead, report
   * that; otherwise change nothing.
   */
  function Conclude(cfg: Config, g: Globals, c: Checks, at: Instant): Globals
  {
    if c.All() then
      var mailed := g.(outbox := g.outbox + Mails(cfg.recipients, g.issLatitude, g.issLongitude));
      Logged(mailed.(passes := mailed.passes + 1), [Entry(NotificationSent, at)])
    else if c.issAbove then
      Logged(g, [Entry(PassedOverhead, at)])
    else
      g
  }

  lemma ConcludeEffect(cfg: Config, g: Globals, c: Checks, at: Instant)
    ensures var h := Conclude(cfg, g, c, at);
      h.runs == g.runs && h.issLatitude == g.issLatitude && h.issLongitude == g.issLongitude &&
      h.cloudCoverage == g.cloudCoverage &&
      h.passes == (if c.All() then g.passes + 1 else g.passes) &&
      h.reports == g.reports +
        (if c.All() then [MakeReport(g.runs, g.passes + 1, Entry(NotificationSent, at))]
         else if c.issAbove then [MakeReport(g.runs, g.passes, Entry(PassedOverhead, at))]
         else []) &&
      h.outbox == (if c.All() then g.outbox + Mails(cfg.recipients, g.issLatitude, g.issLongitude) else g.outbox)
  {
    if c.All() {
      assert ReportsFor(g.runs, g.passes + 1, [Entry(NotificationSent, at)])
          == [MakeReport(g.runs, g.passes + 1, Entry(NotificationSent, at))];
    } else if c.issAbove {
      assert ReportsFor(g.runs, g.passes, [Entry(PassedOverhead, at)])
          == [MakeReport(g.runs, g.passes, Entry(PassedOverhead, at))];
    }
  }

  /** Concluding a round keeps the counters' run and the earlier reports. */
  lemma ConcludeKeeps(cfg: Config, g: Globals, c: Checks, at: Instant)
    ensures var h := Conclude(cfg, g, c, at);
      h.runs == g.runs && |g.reports| <= |h.reports| && h.reports[..|g.reports|] == g.reports
  {
    ConcludeEffect(cfg, g, c, at);
  }

  lemma PrefixOfPrefix<X>(a: seq<X>, b: seq<X>, c: seq<X>)
    requires |a| <= |b| && b[..|a|] == a
    requires |b| <= |c| && c[..|b|] == b
    ensures |a| <= |c| && c[..|a|] == a
  {
    assert c[..|a|] == c[..|b|][..|a|];
  }

  /**
   * One iteration of the `while` loop: count the run, make the three
   * checks, conclude. The boolean is false when an exception ends the
   * process.
   */
  function RunRound(cfg: Config, g: Globals, r: Round): (Globals, bool)
    requires r.Supplied()
  {
    var ev := Evaluate(cfg, g.(runs := g.runs + 1), r);
    if ev.1.None? then (ev.0, false) else (Conclude(cfg, ev.0, ev.1.value, r.reportAt), true)
  }

  /** A round is its checks followed by its conclusion. */
  lemma RoundSplits(cfg: Config, g: Globals, r: Round)
    requires r.Supplied()
    ensures var ev := Evaluate(cfg, g.(runs := g.runs + 1), r);
      RunRound(cfg, g, r) == if ev.1.None? then (ev.0, false) else (Conclude(cfg, ev.0, ev.1.value, r.reportAt), true)
  {
    var ev := Evaluate(cfg, g.(runs := g.runs + 1), r);
    assert RunRound(cfg, g, r) == if ev.1.None? then (ev.0, false) else (Conclude(cfg, ev.0, ev.1.value, r.reportAt), true);
  }

  /** A round completes exactly when Observe has answers for it. */
  lemma RoundObserves(cfg: Config, g: Globals, r: Round)
    requires r.Supplied()
    ensures RunRound(cfg, g, r).1 <==> Observe(cfg, r).Some?
  {
    EvaluateObserves(cfg, g.(runs := g.runs + 1), r);
  }

  /** Every round counts one run and keeps the earlier reports. */
  lemma RoundProgress(cfg: Config, g: Globals, r: Round)
    requires r.Supplied()
    ensures var h := RunRound(cfg, g, r).0;
      h.runs == g.runs + 1 && |g.reports| <= |h.reports| && h.reports[..|g.reports|] == g.reports
  {
    var ev := Evaluate(cfg, g.(runs := g.runs + 1), r);
    EvaluateObserves(cfg, g.(runs := g.runs + 1), r);
    if ev.1.Some? {
      var h := Conclude(cfg, ev.0, ev.1.value, r.reportAt);
      ConcludeKeeps(cfg, ev.0, ev.1.value, r.reportAt);
      assert RunRound(cfg, g, r) == (h, true);
      PrefixOfPrefix(g.reports, ev.0.reports, h.reports);
    } else {
      assert RunRound(cfg, g, r) == (ev.0, false);
    }
  }

  /** A round that ends the process counts no pass and sends no message. */
  lemma RoundCrash(cfg: Config, g: Globals, r: Round)
    requires r.Supplied()
    ensures var h, completed := RunRound(cfg, g, r).0, RunRound(cfg, g, r).1;
      !completed ==> h.passes == g.passes && h.outbox == g.outbox
  {
    var ev := Evaluate(cfg, g.(runs := g.runs + 1), r);
    EvaluateObserves(cfg, g.(runs := g.runs + 1), r);
    if ev.1.Some? {
      ConcludeEffect(cfg, ev.0, ev.1.value, r.reportAt);
    }
  }

  /**
   * A completed round counts a pass exactly when all three answers are
   * yes. Its reports are the fetch failures followed by "Success" (carrying
   * the new pass count) when all three hold, by "ISS passed overhead" when
   * only the station is overhead and by nothing otherwise; one message per
   * recipient is sent exactly on success.
   */
  lemma RoundCompleted(cfg: Config, g: Globals, r: Round)
    requires r.Supplied()
    ensures var h, completed := RunRound(cfg, g, r).0, RunRound(cfg, g, r).1;
      completed ==>
        var c := Observe(cfg, r).value;
        h.passes == (if c.All() then g.passes + 1 else g.passes) &&
        h.reports == g.reports + ReportsFor(g.runs + 1, g.passes, RoundLog(r)) +
          (if c.All() then [MakeReport(g.runs + 1, g.passes + 1, Entry(NotificationSent, r.reportAt))]
           else if c.issAbove then [MakeReport(g.runs + 1, g.passes, Entry(PassedOverhead, r.reportAt))]
           else []) &&
        h.outbox == (if c.All() then g.outbox + Mails(cfg.recipients, h.issLatitude, h.issLongitude) else g.outbox)
    ensures var h, completed := RunRound(cfg, g, r).0, RunRound(cfg, g, r).1;
      var iss, cloud := Retry("ISS API", IssRetries, r.issAttempts).result,
                        Retry("Cloud Cover API", DefaultRetries, r.cloudAttempts).result;
      completed ==>
        iss.Data? && cloud.Data? &&
        h.issLatitude == Some(iss.payload.latitude) && h.issLongitude == Some(iss.payload.longitude) &&
        h.cloudCoverage == Some(cloud.payload)
  {
    var g1 := g.(runs := g.runs + 1);
    var ev := Evaluate(cfg, g1, r);
    EvaluateObserves(cfg, g1, r);
    if ev.1.Some? {
      var c := ev.1.value;
      assert c == Observe(cfg, r).value;
      assert ev.0.reports == g.reports + ReportsFor(g.runs + 1, g.passes, RoundLog(r));
      ConcludeEffect(cfg, ev.0, c, r.reportAt);
      assert RunRound(cfg, g, r) == (Conclude(cfg, ev.0, c, r.reportAt), true);
    }
  }


  /**
   * A completed round counts a pass exactly when the position it stored is
   * overhead of home, it is dark and the cloud cover it stored is clear: the
   * success mail always quotes a position that passed the overhead test.
   */
  lemma RoundCountsPass(cfg: Config, g: Globals, r: Round)
    requires r.Supplied()
    ensures var h, completed := RunRound(cfg, g, r).0, RunRound(cfg, g, r).1;
      completed ==>
        Observe(cfg, r).Some? && h.issLatitude.Some? && h.issLongitude.Some? && h.cloudCoverage.Some? &&
        (h.passes == g.passes + 1 <==>
          Visibility.IsOverhead(cfg.myLat, cfg.myLong, h.issLatitude.value, h.issLongitude.value) &&
          Observe(cfg, r).value.isDark &&
          Visibility.IsClearSky(h.cloudCoverage.value))
  {
    RoundObserves(cfg, g, r);
    RoundCompleted(cfg, g, r);
  }

  /** The counters alone: a round counts one run and at most one pass, and no pass when it ends the process. */
  lemma RoundCounters(cfg: Config, g: Globals, r: Round)
    requires r.Supplied()
    ensures var h, completed := RunRound(cfg, g, r).0, RunRound(cfg, g, r).1;
      h.runs == g.runs + 1 && g.passes <= h.passes <= g.passes + 1 && (!completed ==> h.passes == g.passes)
  {
    RoundProgress(cfg, g, r);
    RoundCrash(cfg, g, r);
    RoundCompleted(cfg, g, r);
  }

  /**
   * The `while` loop: it tests the pass count before every round and stops
   * once the budget is exceeded. Running means the supplied rounds ran out
   * while the loop would go on polling.
   */
  function Loop(cfg: Config, g: Globals, rounds: seq<FullRound>): (Globals, Exit)
    decreases |rounds|
  {
    if g.passes > NumberOfIssPasses then (g, Finished)
    else if |rounds| == 0 then (g, Running)
    else
      var step := RunRound(cfg, g, rounds[0]);
      if !step.1 then (step.0, Crashed) else Loop(cfg, step.0, rounds[1..])
  }

  /** One turn of the loop, over the rounds from index i on. */
  lemma LoopStep(cfg: Config, g: Globals, rounds: seq<FullRound>, i: nat)
    requires i < |rounds| && g.passes <= NumberOfIssPasses
    ensures var step := RunRound(cfg, g, rounds[i]);
      Loop(cfg, g, rounds[i..]) == if !step.1 then (step.0, Crashed) else Loop(cfg, step.0, rounds[i + 1..])
  {
    assert rounds[i..][0] == rounds[i];
    assert rounds[i..][1..] == rounds[i + 1..];
  }

  /** The loop stops at once when the pass budget is exceeded or no round is left. */
  lemma LoopStops(cfg: Config, g: Globals, rounds: seq<FullRound>, i: nat)
    requires i <= |rounds| && (g.passes > NumberOfIssPasses || i == |rounds|)
    ensures Loop(cfg, g, rounds[i..]) == (g, if g.passes > NumberOfIssPasses then Finished else Running)
  {
  }

  /**
   * The whole script from line 163 on: write "Process START", loop, and
   * write "Process END" when the loop ends.
   */
  function Script(cfg: Config, startAt: Instant, rounds: seq<FullRound>, endAt: Instant): (Globals, Exit)
  {
    var looped := Loop(cfg, Logged(Initial, [Entry(ProcessStart, startAt)]), rounds);
    if looped.1 == Finished then (Logged(looped.0, [Entry(ProcessEnd, endAt)]), Finished) else looped
  }

  /**
   * The loop never loses a pass or a report, never counts beyond
   * NUMBER_OF_ISS_PASSES + 1, and runs at most one round per supplied round.
   */
  lemma {:induction false} LoopMonotone(cfg: Config, g: Globals, rounds: seq<FullRound>)
    requires g.passes <= NumberOfIssPasses + 1
    ensures var h := Loop(cfg, g, rounds).0;
      g.passes <= h.passes <= NumberOfIssPasses + 1 &&
      g.runs <= h.runs <= g.runs + |rounds| &&
      |g.reports| <= |h.reports| && h.reports[..|g.reports|] == g.reports
    decreases |rounds|
  {
    if g.passes <= NumberOfIssPasses && |rounds| > 0 {
      RoundProgress(cfg, g, rounds[0]);
      RoundCounters(cfg, g, rounds[0]);
      var step := RunRound(cfg, g, rounds[0]);
      if step.1 {
        var rest := rounds[1..];
        LoopMonotone(cfg, step.0, rest);
        var h := Loop(cfg, step.0, rest).0;
        assert h.reports[..|g.reports|] == h.reports[..|step.0.reports|][..|g.reports|];
      }
    }
  }

  /** The loop finishes exactly when the pass count has reached NUMBER_OF_ISS_PASSES + 1. */
  lemma {:induction false} LoopFinishes(cfg: Config, g: Globals, rounds: seq<FullRound>)
    requires g.passes <= NumberOfIssPasses + 1
    ensures Loop(cfg, g, rounds).1 == Finished <==> Loop(cfg, g, rounds).0.passes == NumberOfIssPasses + 1
    decreases |rounds|
  {
    if g.passes <= NumberOfIssPasses && |rounds| > 0 {
      RoundCounters(cfg, g, rounds[0]);
      var step := RunRound(cfg, g, rounds[0]);
      if step.1 {
        var rest := rounds[1..];
        LoopFinishes(cfg, step.0, rest);
      }
    }
  }

  /** When the supplied rounds run out first, every one of them was run. */
  lemma {:induction false} LoopRunsOut(cfg: Config, g: Globals, rounds: seq<FullRound>)
    ensures Loop(cfg, g, rounds).1 == Running ==> Loop(cfg, g, rounds).0.runs == g.runs + |rounds|
    decreases |rounds|
  {
    if g.passes <= NumberOfIssPasses && |rounds| > 0 {
      RoundCounters(cfg, g, rounds[0]);
      var step := RunRound(cfg, g, rounds[0]);
      if step.1 {
        var rest := rounds[1..];
        LoopRunsOut(cfg, step.0, rest);
      }
    }
  }

  /** The loop keeps the first report and runs at most one round per supplied round. */
  lemma LoopKeepsFirst(cfg: Config, g: Globals, rounds: seq<FullRound>)
    requires |g.reports| >= 1 && g.passes <= NumberOfIssPasses + 1
    ensures var h := Loop(cfg, g, rounds).0;
      |h.reports| >= 1 && h.reports[0] == g.reports[0] && h.runs <= g.runs + |rounds|
  {
    LoopMonotone(cfg, g, rounds);
    var h := Loop(cfg, g, rounds).0;
    assert h.reports[0] == h.reports[..|g.reports|][0];
  }

  /** A run's first report is "Process START", written at runtime 0 with pass count 0. */
  lemma ScriptStarts(cfg: Config, startAt: Instant, rounds: seq<FullRound>, endAt: Instant)
    ensures var h := Script(cfg, startAt, rounds, endAt).0;
      |h.reports| >= 1 && h.reports[0] == MakeReport(0, 0, Entry(ProcessStart, startAt)) && h.runs <= |rounds|
  {
    var g := Logged(Initial, [Entry(ProcessStart, startAt)]);
    LoggedOne(Initial, Entry(ProcessStart, startAt));
    LoopKeepsFirst(cfg, g, rounds);
    var looped := Loop(cfg, g, rounds);
    if looped.1 == Finished {
      LoggedOne(looped.0, Entry(ProcessEnd, endAt));
    }
  }

  /**
   * A run finishes exactly when it has counted NUMBER_OF_ISS_PASSES + 1
   * passes, and then its last report is "Process END"; a run whose supplied
   * rounds ran out has run every one of them.
   */
  lemma ScriptEnds(cfg: Config, startAt: Instant, rounds: seq<FullRound>, endAt: Instant)
    ensures var h, exit := Script(cfg, startAt, rounds, endAt).0, Script(cfg, startAt, rounds, endAt).1;
      (exit == Finished <==> h.passes == NumberOfIssPasses + 1) &&
      (exit == Finished ==> |h.reports| >= 1 && h.reports[|h.reports| - 1] == MakeReport(h.runs, h.passes, Entry(ProcessEnd, endAt))) &&
      (exit == Running ==> h.runs == |rounds|)
  {
    var g := Logged(Initial, [Entry(ProcessStart, startAt)]);
    LoopFinishes(cfg, g, rounds);
    LoopRunsOut(cfg, g, rounds);
    var looped := Loop(cfg, g, rounds);
    if looped.1 == Finished {
      LoggedOne(looped.0, Entry(ProcessEnd, endAt));
    }
  }
}
