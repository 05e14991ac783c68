# url-validator: a Dafny model of the URL checker's decision logic

`url_checker.py` checks a list of URLs over HTTP(S) and sorts them into reachable ("active")
and unreachable ("inactive") lists. This project models the parts of it that decide things,
and proves properties of that model:

- **URL normaliser** (`clean_url`), in `Strings.dfy` and `Normalize.dfy`. Python's `str.strip()`
  is modelled with the whitespace set of `str.isspace()`. `CleanUrl` trims the string and
  puts `http://` in front unless it already starts with `http://` or `https://`.
- **Status classifier** (`is_success_status`), in `Status.dfy`.
- **Per-URL prober** (`check_url`), in `Prober.dfy`. The network is an oracle:
  `transport(url, k)` is what the request of try `k` on `url` produced. It is either a
  `Response` or one of the four no-response failures, which are caught in the order of the
  `except` clauses. A retry first sleeps `retry_delay`. `time.sleep` raises inside the
  `try` when that delay is negative (`ValueError`) or is 2^63 nanoseconds or more away from
  zero (`OverflowError`, since CPython keeps delays as signed 64-bit nanosecond counts).
  The try then ends as a caught exception without sending a request (`SleepFailure`,
  `Attempt`). `Check` renormalises the URL and `RetryLoop` is the `while`
  loop. Both also report the number of tries, of requests sent and of delays slept. They are
  proved equal to `Probe`, which describes the same behaviour without a loop: stop at the
  first try that gets a response, otherwise spend all `retry_count + 1` tries.
- **Batch driver** (`process_urls`), in `Aggregator.dfy`. The URLs are normalised and the
  empty ones filtered out. Creating the worker pool raises `ValueError` when
  `concurrent_scan` is below 1, and `process_urls` re-raises it (`Outcome.Raised`).
  Otherwise `Submit` is the submission loop. Whether a task raises is an oracle `crash(i)`.
  `Collect` is the consumption loop: it appends each result, in submission order, to the
  active list, the inactive list or the crash log, and advances the progress counter once
  per task. `Active`, `Inactive` and `Crashes` specify the three outputs.

Oracles and values standing in for the outside world:
- the HTTP transport: `transport` in `Prober.dfy`. In `Aggregator.dfy` each task gets a
  transport of its own (`Network`: `transport(i)` for the `i`-th submitted check), so two
  checks of the same URL can see different answers;
- exceptions escaping a task: `crash`;
- the response time: an opaque `real`, as is each failure's value `0.0`, which stands for
  Python's integer `0`.

Two behaviours of the code that the model keeps:
- `process_urls` does no de-duplication, so a repeated URL is checked once per occurrence;
- futures are consumed in submission order. `PartitionAppend` and `PartitionSingleton`
  prove that each result list is built task by task in that order, with one entry per task
  that produced it.

## Model

| member | source | states |
|---|---|---|
| `Strings.TrimStart` | url_checker.py:44 | the result is a suffix of the input, everything cut off is whitespace, and the result does not start with whitespace |
| `Strings.TrimEnd` | url_checker.py:44 | the result is a prefix of the input, everything cut off is whitespace, and the result does not end with whitespace |
| `Strings.Strip` | url_checker.py:44 | `strip()` is no longer than its input and leaves no whitespace at either end |
| `Strings.StripCuts` | url_checker.py:44 | `strip()` returns a contiguous slice of its input, and only whitespace was cut off before and after it |
| `Strings.StripFixedPoint` | url_checker.py:44 | a string with no whitespace at its ends is unchanged by `strip()` |
| `Strings.StripIdempotent` | url_checker.py:85 | stripping twice equals stripping once, so `clean_url(url.strip())` sees the same text as `clean_url(url)` |
| `Normalize.CleanUrl` | url_checker.py:42-47 | the output always starts with `http://` or `https://` |
| `Normalize.CleanUrlShape` | url_checker.py:44-47 | the output is the trimmed input exactly when that had a scheme, and `http://` + the trimmed input exactly when it had none |
| `Normalize.CleanUrlNonEmpty` | url_checker.py:185-186 | the output is never empty (at least 7 characters), so the `if url` filter drops nothing |
| `Normalize.CleanUrlKeepsScheme` | url_checker.py:44-47 | a URL whose trimmed form already has a scheme loses only its surrounding whitespace |
| `Normalize.CleanUrlTrimmed` | url_checker.py:42-47 | the output has no whitespace at either end |
| `Normalize.CleanUrlIdempotent` | url_checker.py:42-47 | `clean_url(clean_url(s)) == clean_url(s)` |
| `Normalize.CleanUrlOfStripped` | url_checker.py:85-87 | `clean_url(url.strip())` equals `clean_url(url)` and already has a scheme, so the second scheme check never fires |
| `Status.IsSuccessStatus` | url_checker.py:49-51 | success holds exactly for the 2xx and 3xx status classes (`code / 100` is 2 or 3) |
| `Prober.FirstResponse` | url_checker.py:90-134 | the index of the first attempt below `n` that got a response, or `n`: every earlier attempt got none |
| `Prober.Probe` | url_checker.py:83-160 | the requested URL is always reported; no try is made exactly when `retry_count < 0`, and then the result is the "Max retries exceeded" fallback; otherwise at most `retry_count + 1` tries; when `time.sleep(retry_delay)` completes, every try sends a request and one delay precedes every retry, and when it raises, only the first try sends a request and no delay is slept. Its building blocks are `Attempt` (lines 91-105: the outcome of one try), `FromResponse` (lines 108-134) and `FromFailure` (lines 136-158) |
| `Prober.ProbeStopsAtResponse` | url_checker.py:90-134 | when try `k` is the first with a response, the check ends there after `k + 1` tries, with the result built from that response |
| `Prober.ProbeExhausted` | url_checker.py:90-158 | when no allowed try gets a response, exactly `retry_count + 1` tries happen, and the last failure decides the result |
| `Prober.ForbiddenIsReachable` | url_checker.py:108-115 | a 403 response ends the check at once: active, status 403, no error, and the final URL reported is the requested one |
| `Prober.DefinitiveResponseNotRetried` | url_checker.py:117-134 | any other response ends the check at once, whatever the code: active iff 200 <= code < 400, final URL from the response, that code, no error, the response's time and length |
| `Prober.NoResponseOutcome` | url_checker.py:136-158 | if every try fails without a response, the check is inactive with the requested URL, status 0, time 0, length 0, and the error text of the last failure ("Timeout", "Connection Error" or the message) |
| `Prober.SleepFailureFailsRetries` | url_checker.py:92-94 | when the sleep raises and there is at least one retry, a first try without a response is followed by retries that fail at their sleep: all `retry_count + 1` tries are spent, one request is sent, none is slept, and the check is inactive with the sleep's error |
| `Prober.SleepFailureCases` | url_checker.py:94 | `time.sleep` completes exactly for delays from 0 up to (not including) 2^63 ns; a negative delay within range raises "sleep length must be non-negative", and a delay out of range raises the overflow message |
| `Prober.NegativeDelayFailsRetries` | url_checker.py:92-94 | with a negative `retry_delay` in range and a first try without a response, one request is sent, no delay is slept, and the error is "sleep length must be non-negative" |
| `Prober.OverflowDelayFailsRetries` | url_checker.py:92-94 | with `retry_delay` of 2^63 ns or more and a first try without a response, one request is sent, no delay is slept, and the error is the overflow message |
| `Prober.ProbeOutcome` | url_checker.py:89-160 | for every transport: all tries before the last got no response; the check stops early only on a response; an error is recorded exactly when no response ended it, and then it is inactive with status 0; an active check answered 403 or 2xx/3xx |
| `Prober.DefaultConfigSingleAttempt` | url_checker.py:65-71 | with the default configuration (`retry_count = 0`) a check makes one try, consults the transport once and never sleeps |
| `Prober.Check` | url_checker.py:83-88 | `check_url` returns exactly what `Probe` describes for `clean_url` of its argument |
| `Prober.RetryLoop` | url_checker.py:89-160 | the retry loop returns the result and the counts of tries, requests and delays that `Probe` describes |
| `Aggregator.KeepNonEmpty` | url_checker.py:186 | the result is no longer than the input, and a string is in it exactly when it is a non-empty string of the input |
| `Aggregator.KeepNonEmptyAppend` | url_checker.py:186 | the filter works element by element: the filter of a concatenation is the concatenation of the filters, and a single string is kept exactly when it is non-empty, so order and repetitions are kept |
| `Aggregator.KeepNonEmptyDropsNothing` | url_checker.py:185-186 | on a list without empty strings, such as the list of normalised URLs, the filter is the identity |
| `Aggregator.TasksAt` | url_checker.py:202-205 | there is one task result per submitted URL, the `k`-th for the `k`-th URL |
| `Aggregator.BatchTaskAt` | url_checker.py:185-209 | the `k`-th task of a batch is the check of `clean_url` of the `k`-th input URL, unless that task raised |
| `Aggregator.PartitionComplete` | url_checker.py:207-223 | active count + inactive count + crash count equals the number of tasks |
| `Aggregator.ActiveMembers` | url_checker.py:216-217 | a record is in the active list exactly when some task returned an active result that produced it |
| `Aggregator.InactiveMembers` | url_checker.py:218-219 | a record is in the inactive list exactly when some task returned an inactive result that produced it |
| `Aggregator.CrashMembers` | url_checker.py:220-221 | a message is logged exactly when some task raised it |
| `Aggregator.PartitionAppend` | url_checker.py:207-223 | each of the three outputs of a concatenation of task results is the concatenation of the outputs of the parts, so every list keeps submission order |
| `Aggregator.PartitionSingleton` | url_checker.py:209-221 | one task adds exactly one entry, to the active list, the inactive list or the crash log as its result decides, and nothing to the other two |
| `Aggregator.Submit` | url_checker.py:202-205 | the submission loop yields, in order, the task result of every URL |
| `Aggregator.Collect` | url_checker.py:207-223 | the consumption loop yields the active list, the inactive list and the crash log, in submission order, and advances progress once per task |
| `Aggregator.Process` | url_checker.py:179-228 | `process_urls` raises "max_workers must be greater than 0", with no progress and nothing logged, exactly when `concurrent_scan < 1`; otherwise it gives the progress counter one step per input URL, active + inactive + crashed equals the number of URLs, and each output list is its specification applied to the batch's task results, each task on its own network |

## Left out

- The HTTP request, `response.elapsed` and `response.content` are foreign network I/O. The transport oracle stands in for them. A response carries its elapsed time as an opaque `real` and its body length; `len(content) if content else 0` is that length.
- `timeout`, `method`, `headers` and redirect following matter only to the transport. The model carries them in `Config` but does not interpret them.
- The thread pool's concurrency is left out because it is outside the model. The checks run one after another, and results are consumed in submission order as in the code. The bound on requests in flight at once is not modelled; only the pool's refusal of a `max_workers` below 1 is.
- A completed `time.sleep(retry_delay)` is counted as a delay; no time passes in the model. Its two ways of raising are modelled: a negative delay and a delay outside the signed 64-bit nanosecond range. A NaN or infinite delay cannot occur, because `retry_delay` is a `real`.
- `Prober.SleepFailure`: the range test is made on the exact product `retry_delay * 10^9`. CPython makes it on a rounded double, so a delay within a rounding step of 2^63 ns may fall on the other side. The overflow message is CPython 3's text for that error.
- Under the default configuration (`timeout` 0), `requests` rejects the timeout before any network I/O, so every check ends inactive with that `ValueError`'s message. The transport oracle covers that answer; the model does not single it out.
- Console and log output (colorama, `print`, tqdm, `logging`) are side effects with no effect on results, including the redirect notice. Two parts remain: a crashed task's message in `errors`, and the progress bar's count as `progress`.
- `load_config` and `save_results` are left out because they read and write files. So is `main`, which reads the URL file and reports top-level errors. `DefaultConfig` keeps the default values but leaves the default header map empty.
- The log line written by the outer `except Exception` of `process_urls` (lines 226-228) is left out; the re-raise is modelled as `Outcome.Raised`. The only exception the modelled body raises is the pool's `ValueError`; the others (a missing configuration key, a value of the wrong type) cannot occur, because `Config` has typed fields.
- The exception hierarchy of `requests` (for example, a connect timeout is both a `Timeout` and a `ConnectionError`) is left out. The oracle gives the kind of the first matching `except` clause.
- Exception messages (`str(e)`) are taken from the oracle as they are.
- `Aggregator.Submit`: requires URLs that `clean_url` leaves unchanged, because `process_urls` only ever submits normalised URLs; on other input, `check_url`'s own normalisation would change the URL that is checked.
