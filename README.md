# ISS tracker: a verified model of its decision core

`iss_track.py` polls three web services once a round: the station's position, the day's sunrise and sunset, and the current cloud cover. When the station is within a box around home, it is dark and the sky is clear, it mails every recipient and counts a pass. It stops after `NUMBER_OF_ISS_PASSES + 1` passes. Every step is logged to an in-memory report list (`data_report`): the start, each caught connection failure, each pass and the end.

This project models that core in Dafny and proves what it promises.

- `visibility.dfy` (module `Visibility`): the three tests, as pure functions over already-decoded numbers: the inclusive box, the hour comparison and the cloud threshold.
- `text.dfy` (module `Text`): the string handling the script relies on.
  - `str.split` on one character, `int()` on a digit string and `str()` of a natural number.
  - The zero padding of the report's `HH:MM` time.
  - The hour slicing `stamp.split("T")[1].split(":")[0]`.
- `reports.dfy` (module `Reports`): one report record: the columns Runtime, Date, Time, Status and ISS Passes.
- `api.dfy` (module `Api`): `connect_to_api` as a specification.
  - The network becomes a sequence of attempt outcomes: a payload, the two caught exceptions (each with the instant its report is written) or any other exception.
  - `Retry` gives the call's result, the reports it writes and the attempts it makes.
- `rounds.dfy` (module `Rounds`): the script's globals as one value (`Globals`), with each step as a function over it:
  - the three checks, with their fetches;
  - one iteration of the `while` loop (`RunRound`);
  - the loop itself (`Loop`);
  - the whole run from "Process START" to "Process END" (`Script`).
  - An exception that would end the process is an outcome, not a precondition: a fetch that returns `None` and is then subscripted, a propagated exception, or an hour that `int()` rejects. A round then reports `false`, and the loop stops with `Crashed`.
- `tracker.dfy` (module `IssTrack`): class `Tracker`, the script in its own imperative form.
  - The globals are fields. `write_report` appends to the `dataReport` field.
  - `connect_to_api` is a `for` loop with early returns. The main loop is a `while` loop.
  - Each method is proved to leave exactly the state the matching `Rounds` function describes.
  - The body of the `while` loop is split into `Evaluate` (lines 169-171) and `Conclude` (lines 172-199) to keep each proof small.

The outside world is supplied as parameters:
- the clock, as an `Instant` per report;
- the local hour of each darkness check;
- the outcome of every attempt of every fetch;
- a finite sequence of rounds.

Sending mail appends one `Mail` per recipient to an `outbox`.

Facts about the code that the model keeps as they are:
- `except ConnectionError` at line 80 names Python's built-in `ConnectionError`, not `requests.exceptions.ConnectionError`. A refused connection or a failed name lookup raised by `requests` is therefore not retried. It is an `Other` outcome, which propagates and ends the process. Only a `ConnectTimeout` is caught among the errors `requests` raises.
- `raise_for_status`'s `HTTPError` is not retried either; it propagates in the same way.
- Running out of attempts writes no extra report and returns `None`.
- A fetch without data ends the process when its result is subscripted. The model records this as a round that does not complete, and the loop stops with `Crashed`.

## Model

| member | source | states |
|---|---|---|
| Visibility.IsOverhead | iss_track.py:106-109 | overhead exactly when the latitude and the longitude each differ from home by at most ERROR (5), both bounds included |
| Visibility.IsDark | iss_track.py:130-133 | dark exactly outside the daylight hours [sunrise, sunset); consequently, when the sunset hour is below the sunrise hour, every hour counts as dark |
| Visibility.IsClearSky | iss_track.py:152-155 | the cloud test, at most CLOUD_COVER_THRESHOLD (50) percent; its use is stated by Rounds.NotCloudyEffect and Rounds.RoundCountsPass, its inclusive bound by Visibility.Boundaries |
| Visibility.ClearSkyMonotone | iss_track.py:152-155 | a cloud cover at most a clear one is clear too |
| Visibility.Boundaries | iss_track.py:106-155 | the bounds are inclusive: an offset of exactly 5 is overhead and 5.5 is not; the sunset hour is dark and the sunrise hour is not; 50 % cloud is clear and 51 % is not |
| Text.SplitJoin | iss_track.py:122-123 | `split` on one character gives pieces without that character that join back to the input |
| Text.SplitPrefix | iss_track.py:122-123 | a prefix without the separator is glued onto the first piece of the rest |
| Text.SplitAtSeparator | iss_track.py:122-123 | a separator after a separator-free prefix ends the first piece there |
| Text.SplitWithoutSeparator | iss_track.py:122-123 | a string without the separator splits into itself alone |
| Text.ExtractHour | iss_track.py:122-123 | `int(stamp.split("T")[1].split(":")[0])`, None where the indexing or `int()` fails; stated by Text.HourOfTimestamp and Text.HourNeedsSeparator |
| Text.NatToStringRoundTrip | iss_track.py:47-55 | `str(n)` is a digit string that `int()` reads back as n; it starts with '0' only for 0 and has one digit exactly below 10 |
| Text.Pad | iss_track.py:47-55 | the two-branch zero padding of the hour and the minute; stated by Text.PadTwoDigits |
| Text.FormatTime | iss_track.py:59 | the Time column `HH:MM`; stated by Text.TimeRoundTrip |
| Text.PadTwoDigits | iss_track.py:47-55 | every value below 100 is written with exactly two digits, with a leading '0' exactly when it is below 10, and reads back as itself |
| Text.TimeRoundTrip | iss_track.py:47-60 | the Time field is five characters HH:MM and reads back as the hour and the minute |
| Text.HourOfTimestamp | iss_track.py:122-123 | for `<date>T<HH>:<rest>` with no 'T' in the date, the extracted hour is the value of HH, whatever follows |
| Text.HourNeedsSeparator | iss_track.py:122-123 | a stamp without 'T' yields no hour (the indexing fails) |
| Reports.MakeReport | iss_track.py:57-63 | the record write_report builds; stated by Reports.RecordFields |
| Reports.RecordFields | iss_track.py:57-63 | a record carries the counters it was written under, the status and the date, and a five-character time that reads back as the clock's hour and minute |
| Reports.ReportsForAppend | iss_track.py:65 | writing two batches writes the records of both, in order |
| Rounds.LoggedOne | iss_track.py:57-65 | one write_report call appends exactly one record, under the current counters, and changes nothing else |
| Rounds.LoggedTwice | iss_track.py:65 | the report list is append-only: two batches of appends are one append of both |
| Api.Retry | iss_track.py:74-90 | connect_to_api over the supplied outcomes: result, reports written, attempts made; stated by Api.RetryStopsAt, Api.RetryGivesUp, Api.RetryBounds, Api.RetryReturnsFirstSuccess, Api.RetryExhausted and Api.RetryPropagates |
| Api.FailureLog | iss_track.py:80-87 | one report per caught failure, in order, reading "<api> Connection Error" or "<api> Connection Timeout" |
| Api.FirstUncaught | iss_track.py:75-90 | the index where the retry stops: every earlier attempt was a caught failure, and the one there was not |
| Api.RetryStopsAt | iss_track.py:75-90 | the call stops at the first attempt within the budget that is not a caught failure: its payload is returned or its exception propagates, after the reports of the failures before it |
| Api.RetryGivesUp | iss_track.py:75-90 | after a caught failure on every allowed attempt, the call returns no data with exactly their reports |
| Api.RetryBounds | iss_track.py:75-90 | at most max_retries attempts; one report per attempt when the call gives up, else one per attempt before the last; each report is the caught failure of the attempt at its position |
| Api.RetryReturnsFirstSuccess | iss_track.py:75-90 | payload d is returned after k+1 attempts exactly when attempt k succeeds with d within the budget after nothing but caught failures |
| Api.RetryExhausted | iss_track.py:75-90 | no data exactly when every allowed attempt failed in a caught way; then exactly max_retries attempts and max_retries reports, with no terminal report |
| Api.RetryPropagates | iss_track.py:75-90 | any other exception ends the call at once and reaches the caller |
| Rounds.CheckIssOverhead | iss_track.py:96-109 | check_iss_overhead over the globals; stated by Rounds.IssOverheadEffect |
| Rounds.CheckIfDark | iss_track.py:114-133 | check_if_dark over the globals; stated by Rounds.DarkEffect |
| Rounds.CheckNotCloudy | iss_track.py:139-155 | check_not_cloudy over the globals; stated by Rounds.NotCloudyEffect |
| Rounds.IssOverheadEffect | iss_track.py:96-109 | the position check answers exactly when its fetch delivers a payload; it then stores the coordinates and answers IsOverhead of them; it writes the fetch's reports and touches no counter |
| Rounds.DarkEffect | iss_track.py:114-133 | the darkness check answers exactly when its fetch delivers a payload whose sunrise and sunset both carry an hour, and answers IsDark of those hours |
| Rounds.NotCloudyEffect | iss_track.py:139-155 | the cloud check answers exactly when its fetch delivers a payload; it then stores the coverage and answers IsClearSky of it |
| Rounds.Mails | iss_track.py:176-187 | one message per recipient, in order, each quoting the stored coordinates |
| Rounds.Evaluate | iss_track.py:169-171 | the three checks in order, the first failure ending the process; stated by Rounds.EvaluateObserves |
| Rounds.EvaluateObserves | iss_track.py:169-171 | the three answers are exactly Observe's (all or nothing); counters and sent mail are untouched and earlier reports kept; a round with answers wrote exactly its three fetches' failure reports and stored the ISS payload's latitude and longitude and the cloud payload's coverage |
| Rounds.Conclude | iss_track.py:172-199 | the if/elif/else on the answers; stated by Rounds.ConcludeEffect and Rounds.ConcludeKeeps |
| Rounds.ConcludeEffect | iss_track.py:172-199 | all three yes: one mail per recipient, one more pass, one "Success" record carrying the new count; overhead only: one "ISS passed overhead" record; otherwise nothing |
| Rounds.ConcludeKeeps | iss_track.py:172-199 | concluding keeps the run count and every earlier report |
| Rounds.RunRound | iss_track.py:168-199 | one iteration of the `while` loop; stated by Rounds.RoundObserves, Rounds.RoundProgress, Rounds.RoundCrash, Rounds.RoundCompleted, Rounds.RoundCountsPass and Rounds.RoundCounters |
| Rounds.RoundObserves | iss_track.py:168-171 | a round completes exactly when all three fetches deliver and both sun stamps carry an hour |
| Rounds.RoundProgress | iss_track.py:168 | every round counts exactly one run and keeps the earlier reports |
| Rounds.RoundCrash | iss_track.py:169-171 | a round that ends the process counts no pass and sends no mail |
| Rounds.RoundCompleted | iss_track.py:168-199 | a completed round counts a pass exactly when all three answers are yes; its reports are the fetch failures and then "Success" or "ISS passed overhead" or nothing; mail goes out exactly on success; the stored position and cover are the round's own ISS and cloud payloads, so the mail quotes the fetched position |
| Rounds.RoundCountsPass | iss_track.py:168-190 | a completed round counts a pass exactly when the position it stored is overhead of home, it is dark and the cover it stored is clear |
| Rounds.RoundCounters | iss_track.py:168-190 | a round counts one run and at most one pass, never losing one |
| Rounds.Loop | iss_track.py:166-199 | the `while` loop over the supplied rounds; stated by Rounds.LoopMonotone, Rounds.LoopFinishes, Rounds.LoopRunsOut and Rounds.LoopKeepsFirst |
| Rounds.LoopMonotone | iss_track.py:166-199 | passes and runs never decrease, passes never exceed NUMBER_OF_ISS_PASSES + 1, at most one run per round, and no report is ever lost |
| Rounds.LoopFinishes | iss_track.py:166 | the loop finishes exactly when the pass count is NUMBER_OF_ISS_PASSES + 1 |
| Rounds.LoopRunsOut | iss_track.py:166-199 | when the supplied rounds run out first, every one of them was run |
| Rounds.LoopKeepsFirst | iss_track.py:166-199 | the loop keeps the first report and runs at most one round per supplied round |
| Rounds.Script | iss_track.py:163-202 | the whole run; stated by Rounds.ScriptStarts and Rounds.ScriptEnds |
| Rounds.ScriptStarts | iss_track.py:163-164 | the first report of every run is "Process START", written with runtime 0 and 0 passes; at most one run per supplied round |
| Rounds.ScriptEnds | iss_track.py:166-202 | a run finishes exactly with NUMBER_OF_ISS_PASSES + 1 passes, and its last report is then "Process END"; a run whose rounds ran out ran every one of them |
| IssTrack.Tracker.constructor | iss_track.py:33-38 | the globals start at 0 runs, 0 passes, no coordinates, no coverage, no reports |
| IssTrack.Tracker.WriteReport | iss_track.py:42-65 | the report list grows by exactly one record, stamped with the current counters, earlier records unchanged |
| IssTrack.Tracker.ConnectToApi | iss_track.py:74-90 | the retry loop leaves exactly the reports and returns exactly the result Retry specifies |
| IssTrack.Tracker.CheckIssOverhead | iss_track.py:96-109 | stores the position and answers as the position check specifies |
| IssTrack.Tracker.CheckIfDark | iss_track.py:114-133 | answers as the darkness check specifies |
| IssTrack.Tracker.CheckNotCloudy | iss_track.py:139-155 | stores the coverage and answers as the cloud check specifies |
| IssTrack.Tracker.NotifyRecipients | iss_track.py:176-187 | the outbox grows by one message per recipient, in order |
| IssTrack.Tracker.Evaluate | iss_track.py:169-171 | the three checks in order leave the state and the answers Evaluate specifies |
| IssTrack.Tracker.Conclude | iss_track.py:172-199 | the branch on the answers leaves the state Conclude specifies |
| IssTrack.Tracker.RunRound | iss_track.py:168-199 | one loop iteration leaves the state and the completion flag RunRound specifies |
| IssTrack.Tracker.Poll | iss_track.py:166-199 | the `while` loop leaves the state and the exit Loop specifies |
| IssTrack.Tracker.Run | iss_track.py:163-202 | the whole script leaves the state and the exit Script specifies |

## Left out

- HTTP: `requests.get`, `raise_for_status`, `.json()` and the query parameters. Each attempt's outcome is an input, and each API's payload is given already decoded: two coordinates, two timestamps, one cloud cover.
- Decoding payloads: the JSON subscripting and the `float(...)` of the coordinates are not modelled. A payload without the expected keys is not modelled.
- Floating point: coordinates and home are `real`, and cloud cover is an `int` percentage.
- Configuration: `load_dotenv`, `os.environ` and the `float` parsing of `MY_LAT`/`MY_LONG` are out. Home and the recipient list are a `Config` value; the source hard-codes five addresses.
- SMTP: the session, `starttls`, login and the message text are out. Any failure of them is out too. Sending is modelled as appending one `Mail` (recipient and coordinates) per recipient to an outbox.
- CSV output: the pandas DataFrame and the file rewritten after every append are out. Only the in-memory `data_report` list is modelled.
- Time: `sleep`, `random.randint` back-off and `datetime.now()` are out; the delays change no state. The clock enters as an `Instant` per report and as the hour of each darkness check.
- Time zones: the sunrise and sunset stamps (requested with `formatted=0`) are in UTC, while `datetime.now().hour` is local time. The model compares the numbers as the source does.
- Console output (`print`) is out.
- Text.ParseNat: accepts only non-empty ASCII digit strings. Python's `int()` also accepts surrounding whitespace, a sign and underscores between digits.
- Rounds.Loop: the source loops until the pass budget is exceeded, possibly forever. The model runs over a finite sequence of supplied rounds and reports `Running` when they run out.
- IssTrack.Tracker.Poll: for the same reason, runs the `while` loop over a finite sequence of rounds.
- Api.Retry: a negative `max_retries` makes no attempt, as `range` does. Only the first `max_retries` supplied outcomes are ever consulted.
