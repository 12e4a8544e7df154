/**
 * The retrying fetch helper `fetchWithRetry`: up to `retries + 1` attempts,
 * each classified as a success or a failure, a short-circuit when the
 * caller's signal is aborted, exponential backoff between failures and a
 * final throw of the last error.
 *
 * The transport (`fetch`, its timeout race and the abort wiring) is not
 * modelled: each attempt is one `Attempt` supplied by the environment.
 */
module FetchUtils {
  import opened Wrappers

  /** Default number of retries after the first failure. */
  const DEFAULT_RETRIES: int := 2
  /** Default base delay of the exponential backoff, in milliseconds. */
  const DEFAULT_BACKOFF: int := 500
  /** Default per-attempt timeout, in milliseconds. */
  const DEFAULT_TIMEOUT: int := 8000

  /**
   * The fields of `options` the helper reads itself: `timeout` (None when
   * undefined) and whether a caller `signal` was supplied.
   */
  datatype Options = Options(timeout: Option<int>, hasSignal: bool)

  /** `options = {}`: no timeout and no signal. */
  const EMPTY_OPTIONS: Options := Options(None, false)

  /** A response whose `ok` flag is true. */
  datatype Response = Response(status: nat)

  /** What the race between one transport call and its timer settled with. */
  datatype Reply =
    | Ok(status: nat)                        // a response with `ok` true
    | NotOk(status: nat, statusText: string) // a response with `ok` false
    | NoResponse                             // the call resolved without a response object
    | Timeout                                // the timer fired first
    | NetErr(message: string)                // the call itself rejected

  /**
   * One attempt as the environment delivers it: the reply, and whether the
   * caller's signal reports `aborted` when the failure is caught.
   */
  datatype Attempt = Attempt(reply: Reply, callerAborted: bool)

  /** The errors an attempt can raise, and the generic one of the final throw. */
  datatype FetchError =
    | NoResponseError
    | HttpError(status: nat, statusText: string)
    | TimeoutError
    | NetworkError(message: string)
    | FailedToFetch

  /** What a call settles with: a returned response or a thrown error. */
  datatype Outcome = Returned(response: Response) | Thrown(error: FetchError)

  /** The observable trace of one call: its outcome, attempts made, backoff delays requested. */
  datatype Run = Run(outcome: Outcome, attempts: nat, delays: seq<int>)

  // ---------------------------------------------------------------------
  // Arguments and defaults
  // ---------------------------------------------------------------------

  /**
   * `options.timeout || 8000`: an explicit timeout is used unless it is
   * falsy (absent or zero), in which case the default applies.
   */
  function EffectiveTimeout(options: Options): (t: int)
    ensures t != 0
    ensures options.timeout.Some? && options.timeout.value != 0 ==> t == options.timeout.value
    ensures options.timeout.None? || options.timeout == Some(0) ==> t == DEFAULT_TIMEOUT
  {
    match options.timeout
    case Some(v) => if v != 0 then v else DEFAULT_TIMEOUT
    case None => DEFAULT_TIMEOUT
  }

  // ---------------------------------------------------------------------
  // Error messages
  // ---------------------------------------------------------------------

  predicate IsDigit(c: char) {
    '0' <= c <= '9'
  }

  predicate AllDigits(s: string) {
    forall i :: 0 <= i < |s| ==> IsDigit(s[i])
  }

  function DigitChar(d: nat): (c: char)
    requires d < 10
    ensures IsDigit(c)
  {
    ('0' as int + d) as char
  }

  function DigitValue(c: char): (d: nat)
    requires IsDigit(c)
    ensures d < 10 && DigitChar(d) == c
  {
    c as int - '0' as int
  }

  /** The decimal rendering of a number, as a template literal prints it. */
  function Decimal(n: nat): (s: string)
    ensures |s| >= 1 && AllDigits(s)
  {
    if n < 10 then [DigitChar(n)] else Decimal(n / 10) + [DigitChar(n % 10)]
  }

  /** Reads a string of decimal digits back as a number. */
  function ParseDecimal(s: string): nat
    requires AllDigits(s)
  {
    if s == [] then 0 else 10 * ParseDecimal(s[..|s| - 1]) + DigitValue(s[|s| - 1])
  }

  lemma {:induction false} DecimalRoundTrip(n: nat)
    ensures ParseDecimal(Decimal(n)) == n
  {
    if n >= 10 {
      var s := Decimal(n);
      assert s[..|s| - 1] == Decimal(n / 10);
      assert DigitValue(s[|s| - 1]) == n % 10;
      DecimalRoundTrip(n / 10);
    }
  }

  /** The length of the longest prefix of `s` made of decimal digits. */
  function LeadingDigits(s: string): (n: nat)
    ensures n <= |s|
    ensures forall i :: 0 <= i < n ==> IsDigit(s[i])
    ensures n < |s| ==> !IsDigit(s[n])
  {
    if s != [] && IsDigit(s[0]) then 1 + LeadingDigits(s[1..]) else 0
  }

  /**
   * The message of the `Error` each failure is thrown with. A rejected call's
   * own message is kept; a non-ok response's message starts with `HTTP `.
   */
  function Message(e: FetchError): (m: string)
    ensures e == NoResponseError ==> m == "No response"
    ensures e == TimeoutError ==> m == "timeout"
    ensures e == FailedToFetch ==> m == "Failed to fetch"
    ensures e.NetworkError? ==> m == e.message
    ensures e.HttpError? ==> |m| > 5 && m[..5] == "HTTP "
  {
    match e
    case NoResponseError => "No response"
    case HttpError(status, text) => "HTTP " + Decimal(status) + ": " + text
    case TimeoutError => "timeout"
    case NetworkError(m) => m
    case FailedToFetch => "Failed to fetch"
  }

  /** Recovers status and status text from a message of the form `HTTP <status>: <statusText>`. */
  function ParseHttpMessage(m: string): Option<(nat, string)> {
    if |m| < 5 || m[..5] != "HTTP " then None
    else
      var rest := m[5..];
      var n := LeadingDigits(rest);
      if n == 0 || |rest| < n + 2 || rest[n..n + 2] != ": " then None
      else Some((ParseDecimal(rest[..n]), rest[n + 2..]))
  }

  /** A non-ok response's message carries its status and status text, recoverably. */
  lemma HttpMessageRoundTrip(status: nat, text: string)
    ensures ParseHttpMessage(Message(HttpError(status, text))) == Some((status, text))
  {
    var d := Decimal(status);
    var m := Message(HttpError(status, text));
    assert m == "HTTP " + (d + ": " + text);
    var rest := m[5..];
    assert rest == d + ": " + text;
    assert forall i :: 0 <= i < |d| ==> rest[i] == d[i];
    assert rest[|d|] == ':';
    var n := LeadingDigits(rest);
    assert n == |d|;
    assert rest[..n] == d;
    assert rest[n..n + 2] == ": ";
    assert rest[n + 2..] == text;
    DecimalRoundTrip(status);
  }

  // ---------------------------------------------------------------------
  // One attempt
  // ---------------------------------------------------------------------

  /**
   * Classifies what an attempt's race settled with: a response with `ok`
   * is a success; a missing response, a non-ok response, the timeout and a
   * rejected call are failures, each raised as its own error.
   */
  function Classify(reply: Reply): (r: Result<Response, FetchError>)
    ensures r.Success? <==> reply.Ok?
    ensures reply.Ok? ==> r.value.status == reply.status
    ensures reply.NotOk? ==> r.error == HttpError(reply.status, reply.statusText)
    ensures reply.NoResponse? ==> r.error == NoResponseError
    ensures reply.Timeout? ==> r.error == TimeoutError
    ensures reply.NetErr? ==> r.error == NetworkError(reply.message)
  {
    match reply
    case Ok(status) => Success(Response(status))
    case NotOk(status, text) => Failure(HttpError(status, text))
    case NoResponse => Failure(NoResponseError)
    case Timeout => Failure(TimeoutError)
    case NetErr(m) => Failure(NetworkError(m))
  }

  /** How the call settles if it ends with attempt `a`. */
  function Settle(a: Attempt): (o: Outcome)
    ensures o.Returned? <==> a.reply.Ok?
  {
    match Classify(a.reply)
    case Success(res) => Returned(res)
    case Failure(e) => Thrown(e)
  }

  /** Attempt `a` ends the loop whatever the remaining budget: it succeeded, or it failed after the caller aborted. */
  predicate Stops(options: Options, a: Attempt) {
    a.reply.Ok? || (options.hasSignal && a.callerAborted)
  }

  // ---------------------------------------------------------------------
  // The backoff schedule
  // ---------------------------------------------------------------------

  function Pow2(n: nat): (p: nat)
    ensures p >= 1
  {
    if n == 0 then 1 else 2 * Pow2(n - 1)
  }

  /** `backoff * 2^(attempt - 1)`: the delay after the failed attempt numbered `attempt` (from 1). */
  function Delay(backoff: int, attempt: nat): (d: int)
    requires attempt >= 1
    ensures attempt == 1 ==> d == backoff
  {
    backoff * Pow2(attempt - 1)
  }

  /** Each delay is twice the one before it. */
  lemma DelaysDouble(backoff: int)
    ensures forall a: nat :: a > 1 ==> Delay(backoff, a) == 2 * Delay(backoff, a - 1)
  {
    forall a: nat | a > 1
      ensures Delay(backoff, a) == 2 * Delay(backoff, a - 1)
    {
      var p := Pow2(a - 2);
      assert Pow2(a - 1) == 2 * p;
      assert backoff * (2 * p) == 2 * (backoff * p);
    }
  }

  /** The delays after the first `n` failed attempts: `backoff * 1, backoff * 2, ..., backoff * 2^(n-1)`. */
  function Schedule(backoff: int, n: nat): (s: seq<int>)
    ensures |s| == n
    ensures n > 0 ==> s[0] == backoff
    ensures forall i :: 0 < i < n ==> s[i] == 2 * s[i - 1]
  {
    DelaysDouble(backoff);
    seq(n, i requires 0 <= i < n => Delay(backoff, i + 1))
  }

  function Sum(s: seq<int>): int {
    if s == [] then 0 else Sum(s[..|s| - 1]) + s[|s| - 1]
  }

  /** The `n` delays of a schedule add up to `backoff * (2^n - 1)`. */
  lemma {:induction false} ScheduleSum(backoff: int, n: nat)
    ensures Sum(Schedule(backoff, n)) == backoff * (Pow2(n) - 1)
  {
    if n > 0 {
      var s := Schedule(backoff, n);
      assert s[..n - 1] == Schedule(backoff, n - 1);
      ScheduleSum(backoff, n - 1);
      var p := Pow2(n - 1);
      calc {
        Sum(s);
        Sum(Schedule(backoff, n - 1)) + s[n - 1];
        backoff * (p - 1) + backoff * p;
        { assert backoff * (p - 1) + backoff * p == backoff * (2 * p - 1); }
        backoff * (Pow2(n) - 1);
      }
    }
  }

  // ---------------------------------------------------------------------
  // The whole call, as a reference definition
  // ---------------------------------------------------------------------

  /**
   * The run from the attempt with index `k` (0-based) on, when every
   * earlier attempt failed without stopping the loop.
   */
  function FromAttempt(options: Options, retries: int, backoff: int, outcomes: seq<Attempt>, k: nat): (r: Run)
    requires k <= retries < |outcomes|
    ensures k + 1 <= r.attempts <= retries + 1
    decreases retries - k
  {
    var a := outcomes[k];
    match Classify(a.reply)
    case Success(res) => Run(Returned(res), k + 1, [])
    case Failure(e) =>
      if (options.hasSignal && a.callerAborted) || k + 1 > retries then Run(Thrown(e), k + 1, [])
      else
        var rest := FromAttempt(options, retries, backoff, outcomes, k + 1);
        Run(rest.outcome, rest.attempts, [Delay(backoff, k + 1)] + rest.delays)
  }

  /**
   * What a run from attempt index `k` looks like, loop-free: it ends at an
   * attempt within the budget; it settles as that last attempt settled;
   * every attempt before it failed without a caller abort; it ends before
   * the budget is used up only at an attempt that succeeded or saw the
   * caller abort; and it requested the backoff delays of attempts
   * `k + 1 .. attempts - 1`.
   */
  predicate Characterised(options: Options, retries: int, backoff: int, outcomes: seq<Attempt>, k: nat, r: Run)
    requires k <= retries < |outcomes|
  {
    && k + 1 <= r.attempts <= retries + 1
    && r.outcome == Settle(outcomes[r.attempts - 1])
    && (forall j :: k <= j < r.attempts - 1 ==> !Stops(options, outcomes[j]))
    && (r.attempts <= retries ==> Stops(options, outcomes[r.attempts - 1]))
    && |r.delays| == r.attempts - 1 - k
    && (forall i :: 0 <= i < |r.delays| ==> r.delays[i] == Delay(backoff, k + 1 + i))
  }

  lemma {:induction false} FromAttemptCharacterised(options: Options, retries: int, backoff: int, outcomes: seq<Attempt>, k: nat)
    requires k <= retries < |outcomes|
    ensures Characterised(options, retries, backoff, outcomes, k, FromAttempt(options, retries, backoff, outcomes, k))
    decreases retries - k
  {
    var a := outcomes[k];
    if !a.reply.Ok? && !(options.hasSignal && a.callerAborted) && k + 1 <= retries {
      FromAttemptCharacterised(options, retries, backoff, outcomes, k + 1);
    }
  }

  /**
   * `fetchWithRetry(url, options, retries, backoff)` against the attempt
   * outcomes `outcomes`. With `retries < 0` no attempt is made and
   * `Failed to fetch` is thrown; otherwise between one and `retries + 1`
   * attempts are made.
   */
  function Fetch(options: Options, retries: int, backoff: int, outcomes: seq<Attempt>): (r: Run)
    requires retries < |outcomes|
    ensures retries < 0 ==> r == Run(Thrown(FailedToFetch), 0, [])
    ensures retries >= 0 ==> 1 <= r.attempts <= retries + 1
  {
    if retries < 0 then Run(Thrown(FailedToFetch), 0, [])
    else FromAttempt(options, retries, backoff, outcomes, 0)
  }

  /**
   * The whole call, loop-free: it settles as the last attempt made settled;
   * every attempt before the last failed without a caller abort; it stops
   * before the budget is used up only at an attempt that succeeded or saw
   * the caller abort; and the delays it requests are the backoff schedule,
   * one per attempt but the last.
   */
  lemma FetchCharacterised(options: Options, retries: int, backoff: int, outcomes: seq<Attempt>)
    requires 0 <= retries < |outcomes|
    ensures var r := Fetch(options, retries, backoff, outcomes);
      && 1 <= r.attempts <= retries + 1
      && r.outcome == Settle(outcomes[r.attempts - 1])
      && (forall j :: 0 <= j < r.attempts - 1 ==> !Stops(options, outcomes[j]))
      && (r.attempts <= retries ==> Stops(options, outcomes[r.attempts - 1]))
      && r.delays == Schedule(backoff, r.attempts - 1)
  {
    FromAttemptCharacterised(options, retries, backoff, outcomes, 0);
  }

  /** One step of `FromAttempt`: what attempt `k` does with the run. */
  lemma FromAttemptUnfold(options: Options, retries: int, backoff: int, outcomes: seq<Attempt>, k: nat)
    requires k <= retries < |outcomes|
    ensures var a := outcomes[k];
      var r := FromAttempt(options, retries, backoff, outcomes, k);
      if a.reply.Ok? then r == Run(Returned(Classify(a.reply).value), k + 1, [])
      else if (options.hasSignal && a.callerAborted) || k + 1 > retries then
        r == Run(Thrown(Classify(a.reply).error), k + 1, [])
      else r == Prepend([Delay(backoff, k + 1)], FromAttempt(options, retries, backoff, outcomes, k + 1))
  {
  }

  /** Prepends the delays already requested to the rest of a run. */
  function Prepend(delays: seq<int>, r: Run): Run {
    Run(r.outcome, r.attempts, delays + r.delays)
  }

  // ---------------------------------------------------------------------
  // The loop itself
  // ---------------------------------------------------------------------

  /**
   * The attempt loop of `fetchWithRetry`. `retries` and `backoff` are
   * `None` when the caller left them undefined, and then take their
   * defaults. `outcomes[i]` is what attempt `i + 1` yields.
   */
  method FetchWithRetry(options: Options, retriesArg: Option<int>, backoffArg: Option<int>, outcomes: seq<Attempt>)
    returns (outcome: Outcome, attempts: nat, delays: seq<int>)
    requires retriesArg.GetOr(DEFAULT_RETRIES) < |outcomes|
    ensures Run(outcome, attempts, delays)
         == Fetch(options, retriesArg.GetOr(DEFAULT_RETRIES), backoffArg.GetOr(DEFAULT_BACKOFF), outcomes)
  {
    var retries := retriesArg.GetOr(DEFAULT_RETRIES);
    var backoff := backoffArg.GetOr(DEFAULT_BACKOFF);
    ghost var spec := Fetch(options, retries, backoff, outcomes);
    var attempt: nat := 0;
    var lastErr: Option<FetchError> := None;
    delays := [];
    while attempt <= retries
      invariant retries < 0 ==> attempt == 0 && lastErr == None && delays == []
      invariant retries >= 0 ==> attempt <= retries
      invariant retries >= 0 ==> spec == Prepend(delays, FromAttempt(options, retries, backoff, outcomes, attempt))
      decreases retries + 1 - attempt
    {
      FromAttemptUnfold(options, retries, backoff, outcomes, attempt);
      attempt := attempt + 1;
      var a := outcomes[attempt - 1];
      var res := Classify(a.reply);
      if res.Success? {
        outcome, attempts := Returned(res.value), attempt;
        return;
      }
      lastErr := Some(res.error);
      if options.hasSignal && a.callerAborted {
        outcome, attempts := Thrown(res.error), attempt;
        return;
      }
      if attempt > retries {
        break;
      }
      ghost var rest := FromAttempt(options, retries, backoff, outcomes, attempt);
      assert delays + ([Delay(backoff, attempt)] + rest.delays) == (delays + [Delay(backoff, attempt)]) + rest.delays;
      delays := delays + [Delay(backoff, attempt)];
    }
    outcome := Thrown(if lastErr.Some? then lastErr.value else FailedToFetch);
    attempts := attempt;
  }

  // ---------------------------------------------------------------------
  // Properties of the reference definition
  // ---------------------------------------------------------------------

  /**
   * The first attempt that succeeds or sees the caller abort decides the
   * call: it is the last attempt made, its own result or error is what the
   * call settles with, and one delay came before it per earlier attempt.
   */
  lemma FirstStopDecides(options: Options, retries: int, backoff: int, outcomes: seq<Attempt>, k: nat)
    requires k <= retries < |outcomes|
    requires Stops(options, outcomes[k])
    requires forall j :: 0 <= j < k ==> !Stops(options, outcomes[j])
    ensures Fetch(options, retries, backoff, outcomes).attempts == k + 1
    ensures Fetch(options, retries, backoff, outcomes).outcome == Settle(outcomes[k])
    ensures Fetch(options, retries, backoff, outcomes).delays == Schedule(backoff, k)
  {
    FetchCharacterised(options, retries, backoff, outcomes);
  }

  /** A successful first attempt is returned at once: one attempt, no delay. */
  lemma FirstSuccessReturnsAtOnce(options: Options, retries: int, backoff: int, outcomes: seq<Attempt>)
    requires 0 <= retries < |outcomes|
    requires outcomes[0].reply.Ok?
    ensures Fetch(options, retries, backoff, outcomes)
         == Run(Returned(Response(outcomes[0].reply.status)), 1, [])
  {
  }

  /**
   * A failure caught while the caller's signal is aborted is thrown at
   * once, whatever retries remain.
   */
  lemma CallerAbortThrowsAtOnce(options: Options, retries: int, backoff: int, outcomes: seq<Attempt>, k: nat)
    requires k <= retries < |outcomes|
    requires options.hasSignal && outcomes[k].callerAborted && !outcomes[k].reply.Ok?
    requires forall j :: 0 <= j < k ==> !Stops(options, outcomes[j])
    ensures Fetch(options, retries, backoff, outcomes).outcome == Thrown(Classify(outcomes[k].reply).error)
    ensures Fetch(options, retries, backoff, outcomes).attempts == k + 1
  {
    FirstStopDecides(options, retries, backoff, outcomes, k);
  }

  /**
   * When no attempt succeeds and the caller never aborts, all `retries + 1`
   * attempts are made, the last one's error is thrown, and the delays are
   * `backoff * 2^0, ..., backoff * 2^(retries - 1)`, `backoff * (2^retries - 1)` in all.
   */
  lemma AllFailuresExhaust(options: Options, retries: int, backoff: int, outcomes: seq<Attempt>)
    requires 0 <= retries < |outcomes|
    requires forall j :: 0 <= j <= retries ==> !Stops(options, outcomes[j])
    ensures Fetch(options, retries, backoff, outcomes).attempts == retries + 1
    ensures Fetch(options, retries, backoff, outcomes).outcome == Settle(outcomes[retries])
    ensures Fetch(options, retries, backoff, outcomes).outcome.Thrown?
    ensures Fetch(options, retries, backoff, outcomes).delays == Schedule(backoff, retries)
    ensures Sum(Fetch(options, retries, backoff, outcomes).delays) == backoff * (Pow2(retries) - 1)
  {
    FetchCharacterised(options, retries, backoff, outcomes);
    ScheduleSum(backoff, retries);
  }

  /** A returned response always comes from an attempt whose response was ok, after failures only. */
  lemma ReturnedOnlyAfterOk(options: Options, retries: int, backoff: int, outcomes: seq<Attempt>)
    requires retries < |outcomes|
    requires Fetch(options, retries, backoff, outcomes).outcome.Returned?
    ensures var r := Fetch(options, retries, backoff, outcomes);
      r.attempts >= 1 &&
      outcomes[r.attempts - 1].reply == Ok(r.outcome.response.status) &&
      forall j :: 0 <= j < r.attempts - 1 ==> !outcomes[j].reply.Ok?
  {
    if retries >= 0 {
      FetchCharacterised(options, retries, backoff, outcomes);
    }
  }

  /** With the defaults (two retries, 500 ms base) three failures wait 500 ms, then 1000 ms. */
  lemma DefaultScheduleExample(outcomes: seq<Attempt>)
    requires |outcomes| == 3
    requires forall j :: 0 <= j < 3 ==> outcomes[j] == Attempt(NotOk(503, "Service Unavailable"), false)
    ensures Fetch(EMPTY_OPTIONS, DEFAULT_RETRIES, DEFAULT_BACKOFF, outcomes)
         == Run(Thrown(HttpError(503, "Service Unavailable")), 3, [500, 1000])
  {
  }
}
