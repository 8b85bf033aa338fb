/**
 * connect_to_api as a specification: the bounded retry over a sequence of
 * attempt outcomes. The network is abstracted into the outcome of each
 * attempt; the random back-off sleeps have no effect on state and are
 * left out.
 */
module Api {
  import opened Reports

  /**
   * The outcome of one `requests.get` attempt. ConnectionError and
   * ConnectTimeout are the two exceptions the source catches (the first is
   * Python's built-in ConnectionError); every other exception, including
   * an HTTPError from raise_for_status, is Other and propagates. A caught
   * failure carries the instant its report is written at.
   */
  datatype Attempt<T> =
    | Success(data: T)
    | ConnectionError(at: Instant)
    | ConnectTimeout(at: Instant)
    | Other(error: string)
  {
    predicate Caught()
    {
      ConnectionError? || ConnectTimeout?
    }
  }

  /** What connect_to_api gives its caller: the payload, None after the last attempt, or a propagated exception. */
  datatype Fetched<T> = Data(payload: T) | NoData | Raised(error: string)

  /** Attempts `range(max_retries)` allows: none for a negative count. */
  function Budget(maxRetries: int): nat
  {
    if maxRetries < 0 then 0 else maxRetries
  }

  /** The report one caught failure writes. */
  function FailureEntry<T>(apiName: string, a: Attempt<T>): Entry
    requires a.Caught()
  {
    match a
    case ConnectionError(t) => Entry(apiName + " Connection Error", t)
    case ConnectTimeout(t) => Entry(apiName + " Connection Timeout", t)
  }

  /** The reports written for a run of caught failures, one each, in order. */
  function FailureLog<T>(apiName: string, attempts: seq<Attempt<T>>): (log: seq<Entry>)
    requires forall k :: 0 <= k < |attempts| ==> attempts[k].Caught()
    ensures |log| == |attempts|
    ensures forall k :: 0 <= k < |log| ==> log[k] == FailureEntry(apiName, attempts[k])
    decreases |attempts|
  {
    if |attempts| == 0 then []
    else FailureLog(apiName, attempts[..|attempts| - 1]) + [FailureEntry(apiName, attempts[|attempts| - 1])]
  }

  /** The index of the first attempt in [from, n) that is not a caught failure, or n if there is none. */
  function FirstUncaught<T>(attempts: seq<Attempt<T>>, n: nat, from: nat): (k: nat)
    requires from <= n <= |attempts|
    ensures from <= k <= n
    ensures forall j :: from <= j < k ==> attempts[j].Caught()
    ensures k < n ==> !attempts[k].Caught()
    decreases n - from
  {
    if from == n || !attempts[from].Caught() then from else FirstUncaught(attempts, n, from + 1)
  }

  /** The whole of one connect_to_api call: its result, the reports it writes, the attempts it makes. */
  datatype Retried<T> = Retried(result: Fetched<T>, log: seq<Entry>, made: nat)

  function Retry<T>(apiName: string, maxRetries: int, attempts: seq<Attempt<T>>): Retried<T>
    requires Budget(maxRetries) <= |attempts|
  {
    var n := Budget(maxRetries);
    var k := FirstUncaught(attempts, n, 0);
    if k == n then Retried(NoData, FailureLog(apiName, attempts[..k]), n)
    else
      var result := match attempts[k]
        case Success(d) => Data(d)
        case Other(e) => Raised(e);
      Retried(result, FailureLog(apiName, attempts[..k]), k + 1)
  }

  /** One more caught failure adds its one report at the end of the log. */
  lemma FailureLogStep<T>(apiName: string, attempts: seq<Attempt<T>>, i: nat)
    requires i < |attempts|
    requires forall k :: 0 <= k <= i ==> attempts[k].Caught()
    ensures FailureLog(apiName, attempts[..i + 1]) == FailureLog(apiName, attempts[..i]) + [FailureEntry(apiName, attempts[i])]
  {
    assert attempts[..i + 1][..i] == attempts[..i];
  }

  /** The call stops at the first attempt within the budget that is not a caught failure. */
  lemma RetryStopsAt<T>(apiName: string, maxRetries: int, attempts: seq<Attempt<T>>, k: nat)
    requires Budget(maxRetries) <= |attempts|
    requires k < Budget(maxRetries) && !attempts[k].Caught()
    requires forall j :: 0 <= j < k ==> attempts[j].Caught()
    ensures Retry(apiName, maxRetries, attempts).log == FailureLog(apiName, attempts[..k])
    ensures Retry(apiName, maxRetries, attempts).result
         == (if attempts[k].Success? then Data(attempts[k].data) else Raised(attempts[k].error))
  {
  }

  /** After a caught failure on every allowed attempt the call gives up with all their reports. */
  lemma RetryGivesUp<T>(apiName: string, maxRetries: int, attempts: seq<Attempt<T>>)
    requires Budget(maxRetries) <= |attempts|
    requires forall j :: 0 <= j < Budget(maxRetries) ==> attempts[j].Caught()
    ensures Retry(apiName, maxRetries, attempts).log == FailureLog(apiName, attempts[..Budget(maxRetries)])
    ensures Retry(apiName, maxRetries, attempts).result == NoData
  {
  }

  /**
   * At most max_retries attempts are made, and every attempt but the last
   * one made was a caught failure that wrote exactly one report.
   */
  lemma RetryBounds<T>(apiName: string, maxRetries: int, attempts: seq<Attempt<T>>)
    requires Budget(maxRetries) <= |attempts|
    ensures var r := Retry(apiName, maxRetries, attempts);
      r.made <= Budget(maxRetries) &&
      |r.log| == (if r.result.NoData? then r.made else r.made - 1) &&
      forall j :: 0 <= j < |r.log| ==> attempts[j].Caught() && r.log[j] == FailureEntry(apiName, attempts[j])
  {
  }

  /**
   * The payload of an attempt is returned exactly when that attempt
   * succeeds within the budget after nothing but caught failures; then
   * exactly that many attempts are made and no later one.
   */
  lemma RetryReturnsFirstSuccess<T>(apiName: string, maxRetries: int, attempts: seq<Attempt<T>>, k: nat, d: T)
    requires Budget(maxRetries) <= |attempts|
    ensures (Retry(apiName, maxRetries, attempts).result == Data(d) && Retry(apiName, maxRetries, attempts).made == k + 1)
        <==> (k < Budget(maxRetries) && attempts[k] == Success(d) && forall j :: 0 <= j < k ==> attempts[j].Caught())
  {
  }

  /**
   * When every allowed attempt fails in a caught way the call returns
   * None after exactly max_retries attempts and exactly max_retries
   * reports; there is no extra report for giving up. Conversely None
   * means that every allowed attempt failed in a caught way.
   */
  lemma RetryExhausted<T>(apiName: string, maxRetries: int, attempts: seq<Attempt<T>>)
    requires Budget(maxRetries) <= |attempts|
    ensures var r := Retry(apiName, maxRetries, attempts);
      r.result.NoData? <==> forall j :: 0 <= j < Budget(maxRetries) ==> attempts[j].Caught()
    ensures var r := Retry(apiName, maxRetries, attempts);
      r.result.NoData? ==> r.made == Budget(maxRetries) && |r.log| == Budget(maxRetries)
  {
  }

  /** An exception other than the two caught ones ends the call at once and reaches the caller. */
  lemma RetryPropagates<T>(apiName: string, maxRetries: int, attempts: seq<Attempt<T>>, k: nat)
    requires Budget(maxRetries) <= |attempts|
    requires k < Budget(maxRetries) && attempts[k].Other?
    requires forall j :: 0 <= j < k ==> attempts[j].Caught()
    ensures Retry(apiName, maxRetries, attempts).result == Raised(attempts[k].error)
    ensures Retry(apiName, maxRetries, attempts).made == k + 1
  {
  }
}
