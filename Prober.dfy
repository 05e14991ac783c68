/**
 The per-URL prober `check_url`: a retry loop over at most `retry_count + 1` attempts.
 The network is an oracle `transport(url, k)` giving the result of attempt `k`.
 A response of any status ends the loop; only attempts that got no response are retried.
 */
module Prober {
  import opened Wrappers
  import opened Strings
  import opened Normalize
  import opened Status

  /** The configuration keys the prober reads; `timeout`, `method` and `headers` are only
      handed to the transport, and `concurrent_scan` only sizes the worker pool. */
  datatype Config = Config(
    timeout: real,
    concurrentScan: int,
    retryCount: int,
    retryDelay: real,
    httpMethod: string,
    headers: map<string, string>)

  /** The built-in configuration used when `config.json` is missing or malformed (its browser-like
      headers only reach the transport and are not spelled out). */
  const DefaultConfig := Config(0.0, 1, 0, 0.0, "GET", map[])

  /** What one attempt of `requests.request` produced. `elapsed` is
      `response.elapsed.total_seconds()`, `contentLength` is the length of the body.
      The failure kinds are tested in the order of the `except` clauses. */
  datatype Transport =
    | Response(status: int, finalUrl: string, elapsed: real, contentLength: nat)
    | Timeout
    | ConnError
    | ReqError(msg: string)
    | OtherError(msg: string)

  /** The `details` dictionary of a check. */
  datatype Details = Details(statusCode: int, error: Option<string>, responseTime: real, contentLength: nat)

  /** The tuple `(url, is_active, final_url, details)` returned by `check_url`. */
  datatype CheckResult = CheckResult(url: string, isActive: bool, finalUrl: string, details: Details)

  /** A check together with the number of tries the loop made, the requests among them that
      were sent, and the delays slept. */
  datatype Run = Run(result: CheckResult, attempts: nat, requests: nat, delays: nat)

  /** The message of the `ValueError` that `time.sleep` raises for a negative delay. */
  const SleepNegative := "sleep length must be non-negative"

  /** The message of the `OverflowError` that `time.sleep` raises for a delay it cannot convert. */
  const SleepOverflow := "timestamp too large to convert to C _PyTime_t"

  /** 2^63: the delays `time.sleep` can convert lie in `[-2^63, 2^63)` nanoseconds. */
  const SleepRangeNs: real := 9223372036854775808.0

  /** The exception `time.sleep(delay)` raises, if any. CPython first converts the delay in
      seconds to a signed 64-bit count of nanoseconds, which overflows outside that range,
      and then refuses a negative count. */
  function SleepFailure(delay: real): Option<string> {
    if delay * 1000000000.0 >= SleepRangeNs || delay * 1000000000.0 < -SleepRangeNs then Some(SleepOverflow)
    else if delay < 0.0 then Some(SleepNegative)
    else None
  }

  /** The `error` text recorded when an attempt got no response. */
  function ErrorText(t: Transport): string
    requires !t.Response?
  {
    match t
    case Timeout => "Timeout"
    case ConnError => "Connection Error"
    case ReqError(msg) => msg
    case OtherError(msg) => msg
  }

  /** The result built from a response: 403 counts as reachable and reports the requested URL,
      any other code is classified by `is_success_status` and reports the redirect target. */
  function FromResponse(url: string, t: Transport): CheckResult
    requires t.Response?
  {
    if t.status == 403 then
      CheckResult(url, true, url, Details(403, None, t.elapsed, t.contentLength))
    else
      CheckResult(url, IsSuccessStatus(t.status), t.finalUrl, Details(t.status, None, t.elapsed, t.contentLength))
  }

  /** The result built when the last allowed attempt got no response. */
  function FromFailure(url: string, t: Transport): CheckResult
    requires !t.Response?
  {
    CheckResult(url, false, url, Details(0, Some(ErrorText(t)), 0.0, 0))
  }

  /** The result after the loop exits without a decision (only when `retry_count < 0`). */
  function MaxRetriesExceeded(url: string): CheckResult {
    CheckResult(url, false, url, Details(0, Some("Max retries exceeded"), 0.0, 0))
  }

  /** What try `k` of the loop ends with. A retry first sleeps `retry_delay`; a sleep that
      raises does so inside the `try` before the request is sent, and `except Exception`
      catches it. Otherwise the try ends with what the request produced. */
  function Attempt(url: string, cfg: Config, transport: (string, nat) -> Transport, k: nat): Transport {
    if k > 0 && SleepFailure(cfg.retryDelay).Some? then OtherError(SleepFailure(cfg.retryDelay).value)
    else transport(url, k)
  }

  /** The requests sent by the first `tries` tries: one per try, or only the first one when
      every retry's sleep raises. */
  function Requests(cfg: Config, tries: nat): nat {
    if SleepFailure(cfg.retryDelay).Some? && tries > 1 then 1 else tries
  }

  /** The delays slept by the first `tries` tries: one before every retry, or none when every
      retry's sleep raises. */
  function Delays(cfg: Config, tries: nat): nat {
    if SleepFailure(cfg.retryDelay).Some? || tries == 0 then 0 else tries - 1
  }

  /** The index of the first of tries `0 .. n - 1` that got a response, or `n` if none did. */
  function FirstResponse(url: string, cfg: Config, transport: (string, nat) -> Transport, n: nat): (r: nat)
    ensures r <= n
    ensures forall k :: 0 <= k < r ==> !Attempt(url, cfg, transport, k).Response?
    ensures r < n ==> Attempt(url, cfg, transport, r).Response?
  {
    if n == 0 then 0
    else
      var r := FirstResponse(url, cfg, transport, n - 1);
      if r < n - 1 || Attempt(url, cfg, transport, n - 1).Response? then r else n
  }

  /** What `check_url` does with the requested `url`, stated without the loop: it stops at the
      first try that gets a response, and otherwise spends all `retry_count + 1` tries. */
  function Probe(url: string, cfg: Config, transport: (string, nat) -> Transport): (r: Run)
    ensures r.result.url == url
    ensures r.attempts == 0 <==> cfg.retryCount < 0
    ensures cfg.retryCount >= 0 ==> r.attempts <= cfg.retryCount + 1
    ensures r.attempts == 0 ==> r.requests == 0 && r.delays == 0
    ensures SleepFailure(cfg.retryDelay).None? && r.attempts > 0 ==> r.requests == r.attempts && r.delays == r.attempts - 1
    ensures SleepFailure(cfg.retryDelay).Some? && r.attempts > 0 ==> r.requests == 1 && r.delays == 0
    ensures cfg.retryCount < 0 ==> r.result == MaxRetriesExceeded(url)
  {
    if cfg.retryCount < 0 then Run(MaxRetriesExceeded(url), 0, 0, 0)
    else
      var n := cfg.retryCount + 1;
      var k := FirstResponse(url, cfg, transport, n);
      if k < n then Run(FromResponse(url, Attempt(url, cfg, transport, k)), k + 1, Requests(cfg, k + 1), Delays(cfg, k + 1))
      else Run(FromFailure(url, Attempt(url, cfg, transport, n - 1)), n, Requests(cfg, n), Delays(cfg, n))
  }

  /** When try `k` is the first to get a response, the check ends there after `k + 1` tries,
      and the result is built from that response; it is never retried. */
  lemma ProbeStopsAtResponse(url: string, cfg: Config, transport: (string, nat) -> Transport, k: nat)
    requires k <= cfg.retryCount
    requires forall i :: 0 <= i < k ==> !Attempt(url, cfg, transport, i).Response?
    requires Attempt(url, cfg, transport, k).Response?
    ensures Probe(url, cfg, transport)
         == Run(FromResponse(url, Attempt(url, cfg, transport, k)), k + 1, Requests(cfg, k + 1), Delays(cfg, k + 1))
  {
    var n := FirstResponse(url, cfg, transport, cfg.retryCount + 1);
    assert n == k;
  }

  /** When no allowed try gets a response, all `retry_count + 1` tries are spent, and the error
      comes from the last one. */
  lemma ProbeExhausted(url: string, cfg: Config, transport: (string, nat) -> Transport)
    requires cfg.retryCount >= 0
    requires forall i :: 0 <= i <= cfg.retryCount ==> !Attempt(url, cfg, transport, i).Response?
    ensures Probe(url, cfg, transport)
         == Run(FromFailure(url, Attempt(url, cfg, transport, cfg.retryCount)), cfg.retryCount + 1,
                Requests(cfg, cfg.retryCount + 1), Delays(cfg, cfg.retryCount + 1))
  {
    var n := FirstResponse(url, cfg, transport, cfg.retryCount + 1);
    assert n == cfg.retryCount + 1;
  }

  /** A 403 response ends the check at once: reachable, status 403, no error, and the reported
      final URL is the requested one rather than the response's. */
  lemma ForbiddenIsReachable(url: string, cfg: Config, transport: (string, nat) -> Transport, k: nat)
    requires k <= cfg.retryCount
    requires forall i :: 0 <= i < k ==> !Attempt(url, cfg, transport, i).Response?
    requires Attempt(url, cfg, transport, k).Response? && Attempt(url, cfg, transport, k).status == 403
    ensures var r := Probe(url, cfg, transport);
            var t := Attempt(url, cfg, transport, k);
            && r.attempts == k + 1
            && r.result == CheckResult(url, true, url, Details(403, None, t.elapsed, t.contentLength))
  {
    ProbeStopsAtResponse(url, cfg, transport, k);
  }

  /** Any other response also ends the check at once, however bad its code (404, 500, ...):
      it is classified by `is_success_status` and reports the response's final URL. */
  lemma DefinitiveResponseNotRetried(url: string, cfg: Config, transport: (string, nat) -> Transport, k: nat)
    requires k <= cfg.retryCount
    requires forall i :: 0 <= i < k ==> !Attempt(url, cfg, transport, i).Response?
    requires Attempt(url, cfg, transport, k).Response? && Attempt(url, cfg, transport, k).status != 403
    ensures var r := Probe(url, cfg, transport);
            var t := Attempt(url, cfg, transport, k);
            && r.attempts == k + 1
            && r.result.isActive == (200 <= t.status < 400)
            && r.result.finalUrl == t.finalUrl
            && r.result.details == Details(t.status, None, t.elapsed, t.contentLength)
  {
    ProbeStopsAtResponse(url, cfg, transport, k);
  }

  /** If every try fails without a response, the check is unreachable with status 0,
      no timing or content, and the error of the last failure. */
  lemma NoResponseOutcome(url: string, cfg: Config, transport: (string, nat) -> Transport)
    requires cfg.retryCount >= 0
    requires forall i :: 0 <= i <= cfg.retryCount ==> !Attempt(url, cfg, transport, i).Response?
    ensures var r := Probe(url, cfg, transport);
            && r.attempts == cfg.retryCount + 1
            && !r.result.isActive
            && r.result.finalUrl == url
            && r.result.details == Details(0, Some(ErrorText(Attempt(url, cfg, transport, cfg.retryCount))), 0.0, 0)
  {
    ProbeExhausted(url, cfg, transport);
  }

  /** A sleep that raises makes only the first try send a request: if it gets no response,
      every retry fails at its sleep, and the check ends with the sleep's error after all
      `retry_count + 1` tries, one request and no delay. */
  lemma {:induction false} SleepFailureFailsRetries(url: string, cfg: Config, transport: (string, nat) -> Transport)
    requires cfg.retryCount >= 1 && SleepFailure(cfg.retryDelay).Some?
    requires !transport(url, 0).Response?
    ensures var r := Probe(url, cfg, transport);
            && r.attempts == cfg.retryCount + 1
            && r.requests == 1
            && r.delays == 0
            && r.result == CheckResult(url, false, url, Details(0, SleepFailure(cfg.retryDelay), 0.0, 0))
  {
    assert forall i :: 0 <= i <= cfg.retryCount ==> !Attempt(url, cfg, transport, i).Response?;
    ProbeExhausted(url, cfg, transport);
  }

  /** Which delays make `time.sleep` raise, and with which message: a negative delay within
      range is refused, a delay of 2^63 nanoseconds or more (about 292 years) overflows, and
      every delay from zero up to that bound is slept. */
  lemma SleepFailureCases(delay: real)
    ensures -9223372036.854775808 <= delay < 0.0 ==> SleepFailure(delay) == Some(SleepNegative)
    ensures delay >= 9223372036.854775808 || delay < -9223372036.854775808 ==> SleepFailure(delay) == Some(SleepOverflow)
    ensures SleepFailure(delay).None? <==> 0.0 <= delay < 9223372036.854775808
  {
  }

  /** With a negative `retry_delay`, a first try without a response leaves only retries that
      fail at their sleep, each with "sleep length must be non-negative". */
  lemma NegativeDelayFailsRetries(url: string, cfg: Config, transport: (string, nat) -> Transport)
    requires cfg.retryCount >= 1 && -9223372036.854775808 <= cfg.retryDelay < 0.0
    requires !transport(url, 0).Response?
    ensures var r := Probe(url, cfg, transport);
            && r.requests == 1 && r.delays == 0
            && r.result.details.error == Some(SleepNegative)
  {
    SleepFailureCases(cfg.retryDelay);
    SleepFailureFailsRetries(url, cfg, transport);
  }

  /** With a `retry_delay` of 2^63 nanoseconds or more, a first try without a response leaves
      only retries whose sleep overflows. */
  lemma OverflowDelayFailsRetries(url: string, cfg: Config, transport: (string, nat) -> Transport)
    requires cfg.retryCount >= 1 && cfg.retryDelay >= 9223372036.854775808
    requires !transport(url, 0).Response?
    ensures var r := Probe(url, cfg, transport);
            && r.requests == 1 && r.delays == 0
            && r.result.details.error == Some(SleepOverflow)
  {
    SleepFailureCases(cfg.retryDelay);
    SleepFailureFailsRetries(url, cfg, transport);
  }

  /** Every check, whatever the transport does: the tries before the last got no response;
      the check stops early only on a response; an error is recorded exactly when the last
      try got no response (or none was made), and then nothing else is reported; a
      reachable URL answered 403 or a 2xx/3xx code. */
  lemma ProbeOutcome(url: string, cfg: Config, transport: (string, nat) -> Transport)
    ensures var r := Probe(url, cfg, transport);
            && (forall i :: 0 <= i < r.attempts - 1 ==> !Attempt(url, cfg, transport, i).Response?)
            && (0 < r.attempts < cfg.retryCount + 1 ==> Attempt(url, cfg, transport, r.attempts - 1).Response?)
            && ((r.result.details.error == None) <==>
                  r.attempts > 0 && Attempt(url, cfg, transport, r.attempts - 1).Response?)
            && (r.result.details.error.Some? ==>
                  && !r.result.isActive && r.result.finalUrl == url
                  && r.result.details.statusCode == 0
                  && r.result.details.responseTime == 0.0 && r.result.details.contentLength == 0)
            && (r.result.isActive ==>
                  r.result.details.statusCode == 403 || IsSuccessStatus(r.result.details.statusCode))
  {
    if cfg.retryCount >= 0 {
      var n := FirstResponse(url, cfg, transport, cfg.retryCount + 1);
      if n < cfg.retryCount + 1 {
        ProbeStopsAtResponse(url, cfg, transport, n);
      } else {
        ProbeExhausted(url, cfg, transport);
      }
    }
  }

  /** Under the default configuration (`retry_count = 0`) every check makes one try, consults
      the transport once and never sleeps. */
  lemma DefaultConfigSingleAttempt(url: string, transport: (string, nat) -> Transport)
    ensures Probe(url, DefaultConfig, transport).attempts == 1
    ensures Probe(url, DefaultConfig, transport).requests == 1
    ensures Probe(url, DefaultConfig, transport).delays == 0
  {
  }

  /** `check_url`: normalise the URL again (lines 85-87), then run the retry loop on it. */
  method Check(raw: string, cfg: Config, transport: (string, nat) -> Transport)
    returns (result: CheckResult, attempts: nat, requests: nat, delays: nat)
    ensures Run(result, attempts, requests, delays) == Probe(CleanUrl(raw), cfg, transport)
  {
    var url := CleanUrl(Strip(raw));
    CleanUrlOfStripped(raw);
    if !HasScheme(url) {
      url := HttpPrefix + url;
    }
    result, attempts, requests, delays := RetryLoop(url, cfg, transport);
  }

  /** The `while` loop of `check_url`: sleep before every try but the first, return at the
      first response, and give up once the retries are used up. */
  method RetryLoop(url: string, cfg: Config, transport: (string, nat) -> Transport)
    returns (result: CheckResult, attempts: nat, requests: nat, delays: nat)
    ensures Run(result, attempts, requests, delays) == Probe(url, cfg, transport)
  {
    var retryCount := 0;
    attempts, requests, delays := 0, 0, 0;
    while retryCount <= cfg.retryCount
      invariant retryCount == 0 || retryCount <= cfg.retryCount
      invariant attempts == retryCount
      invariant requests == Requests(cfg, retryCount)
      invariant delays == Delays(cfg, retryCount)
      invariant forall k :: 0 <= k < retryCount ==> !Attempt(url, cfg, transport, k).Response?
      decreases cfg.retryCount - retryCount
    {
      attempts := attempts + 1;
      var sleepError: Option<string> := None;
      if retryCount > 0 {
        sleepError := SleepFailure(cfg.retryDelay);  // time.sleep(retry_delay)
        if sleepError.None? {
          delays := delays + 1;
        }
      }
      var outcome: Transport;
      if sleepError.Some? {
        outcome := OtherError(sleepError.value);
      } else {
        requests := requests + 1;
        outcome := transport(url, retryCount);
      }
      assert outcome == Attempt(url, cfg, transport, retryCount);
      match outcome
      case Response(status, finalUrl, elapsed, contentLength) =>
        ProbeStopsAtResponse(url, cfg, transport, retryCount);
        if status == 403 {
          result := CheckResult(url, true, url, Details(403, None, elapsed, contentLength));
          return;
        }
        var isSuccess := IsSuccessStatus(status);
        result := CheckResult(url, isSuccess, finalUrl, Details(status, None, elapsed, contentLength));
        return;
      case Timeout =>
        retryCount := retryCount + 1;
        if retryCount > cfg.retryCount {
          ProbeExhausted(url, cfg, transport);
          result := CheckResult(url, false, url, Details(0, Some("Timeout"), 0.0, 0));
          return;
        }
      case ConnError =>
        retryCount := retryCount + 1;
        if retryCount > cfg.retryCount {
          ProbeExhausted(url, cfg, transport);
          result := CheckResult(url, false, url, Details(0, Some("Connection Error"), 0.0, 0));
          return;
        }
      case ReqError(msg) =>
        retryCount := retryCount + 1;
        if retryCount > cfg.retryCount {
          ProbeExhausted(url, cfg, transport);
          result := CheckResult(url, false, url, Details(0, Some(msg), 0.0, 0));
          return;
        }
      case OtherError(msg) =>
        retryCount := retryCount + 1;
        if retryCount > cfg.retryCount {
          ProbeExhausted(url, cfg, transport);
          result := CheckResult(url, false, url, Details(0, Some(msg), 0.0, 0));
          return;
        }
    }
    result := CheckResult(url, false, url, Details(0, Some("Max retries exceeded"), 0.0, 0));
  }
}
