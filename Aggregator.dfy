/**
 The batch driver `process_urls`: normalise every URL, submit one check per URL, then take
 the results in submission order and append each to the active or the inactive list,
 advancing the progress bar once per URL. The worker pool is modelled by running the checks
 one after another; since results are consumed in submission order, the lists are the same.
 */
module Aggregator {
  import opened Wrappers
  import opened Normalize
  import opened Prober

  /** The dictionary `{"url": url, "final_url": final_url, **details}` stored in a list. */
  datatype Record = Record(url: string, finalUrl: string, details: Details)

  /** What `future.result()` gave: the check's tuple, or the message of the exception it raised. */
  datatype TaskResult = Ok(result: CheckResult) | Crash(msg: string)

  /** The network as every task sees it: `transport(i)(url, k)` is what try `k` of the `i`-th
      submitted check produced. Each `executor.submit` is a check of its own, so two tasks on
      the same URL may see different answers. */
  type Network = nat -> (string, nat) -> Transport

  /** How `process_urls` ends: it returns the two lists, or the exception its `try` re-raises. */
  datatype Outcome = Returned(active: seq<Record>, inactive: seq<Record>) | Raised(msg: string)

  /** The message of the `ValueError` that `ThreadPoolExecutor` raises for `max_workers <= 0`. */
  const MaxWorkersError := "max_workers must be greater than 0"

  function ToRecord(c: CheckResult): Record {
    Record(c.url, c.finalUrl, c.details)
  }

  /** `[url for url in urls if url]`: drop the empty strings, keep the rest in order. */
  function KeepNonEmpty(urls: seq<string>): (r: seq<string>)
    ensures |r| <= |urls|
    ensures forall u :: u in r ==> u in urls && u != []
    ensures forall u :: u in urls && u != [] ==> u in r
  {
    if urls == [] then []
    else (if urls[0] != [] then [urls[0]] else []) + KeepNonEmpty(urls[1..])
  }

  /** The list of URLs submitted: every input URL through `clean_url`. */
  function Cleaned(urls: seq<string>): seq<string> {
    seq(|urls|, i requires 0 <= i < |urls| => CleanUrl(urls[i]))
  }

  /** The result of the task submitted `i`-th for the normalised `url`: the crash the oracle
      reports for it, or else what the check of `url` returns on that task's network. */
  function TaskOutcome(url: string, i: nat, cfg: Config, transport: Network,
                       crash: nat -> Option<string>): TaskResult
  {
    match crash(i)
    case Some(msg) => Crash(msg)
    case None => Ok(Probe(url, cfg, transport(i)).result)
  }

  /** The task results for the submitted URLs, in submission order. */
  function Tasks(submitted: seq<string>, cfg: Config, transport: Network,
                 crash: nat -> Option<string>): seq<TaskResult>
  {
    if submitted == [] then []
    else
      var n := |submitted| - 1;
      Tasks(submitted[..n], cfg, transport, crash) + [TaskOutcome(submitted[n], n, cfg, transport, crash)]
  }

  /** There is one task result per submitted URL, the `k`-th for the `k`-th URL. */
  lemma {:induction false} TasksAt(submitted: seq<string>, cfg: Config, transport: Network,
                                   crash: nat -> Option<string>, k: nat)
    requires k < |submitted|
    ensures |Tasks(submitted, cfg, transport, crash)| == |submitted|
    ensures Tasks(submitted, cfg, transport, crash)[k] == TaskOutcome(submitted[k], k, cfg, transport, crash)
  {
    var n := |submitted| - 1;
    var init := submitted[..n];
    if k < n {
      TasksAt(init, cfg, transport, crash, k);
    } else if n > 0 {
      TasksAt(init, cfg, transport, crash, 0);
    }
  }

  /** In a batch, the `k`-th task is the check of the `k`-th input URL after `clean_url`,
      unless that task raised. */
  lemma BatchTaskAt(urls: seq<string>, cfg: Config, transport: Network,
                    crash: nat -> Option<string>, k: nat)
    requires k < |urls|
    ensures |Tasks(Cleaned(urls), cfg, transport, crash)| == |urls|
    ensures Tasks(Cleaned(urls), cfg, transport, crash)[k]
         == if crash(k).Some? then Crash(crash(k).value)
            else Ok(Probe(CleanUrl(urls[k]), cfg, transport(k)).result)
  {
    TasksAt(Cleaned(urls), cfg, transport, crash, k);
  }

  /** The records appended to `active_urls` while consuming `s` in order. */
  function Active(s: seq<TaskResult>): seq<Record> {
    if s == [] then []
    else
      var last := s[|s| - 1];
      Active(s[..|s| - 1]) + (if last.Ok? && last.result.isActive then [ToRecord(last.result)] else [])
  }

  /** The records appended to `inactive_urls` while consuming `s` in order. */
  function Inactive(s: seq<TaskResult>): seq<Record> {
    if s == [] then []
    else
      var last := s[|s| - 1];
      Inactive(s[..|s| - 1]) + (if last.Ok? && !last.result.isActive then [ToRecord(last.result)] else [])
  }

  /** The messages logged for the tasks of `s` that raised, in order. */
  function Crashes(s: seq<TaskResult>): seq<string> {
    if s == [] then []
    else
      var last := s[|s| - 1];
      Crashes(s[..|s| - 1]) + (if last.Crash? then [last.msg] else [])
  }

  /** Since `clean_url` never returns an empty string, the filter drops nothing. */
  lemma {:induction false} KeepNonEmptyDropsNothing(urls: seq<string>)
    requires forall i :: 0 <= i < |urls| ==> urls[i] != []
    ensures KeepNonEmpty(urls) == urls
  {
    if urls != [] {
      KeepNonEmptyDropsNothing(urls[1..]);
    }
  }

  /** The filter works element by element: on a concatenation it is the concatenation of the
      filtered parts, and a single string is kept exactly when it is not empty. So order and
      repetitions of the non-empty strings are kept. */
  lemma {:induction false} KeepNonEmptyAppend(a: seq<string>, b: seq<string>)
    ensures KeepNonEmpty(a + b) == KeepNonEmpty(a) + KeepNonEmpty(b)
    ensures forall u :: KeepNonEmpty([u]) == if u == [] then [] else [u]
  {
    if a == [] {
      assert a + b == b;
    } else {
      assert (a + b)[0] == a[0];
      assert (a + b)[1..] == a[1..] + b;
      KeepNonEmptyAppend(a[1..], b);
    }
    assert forall u: string :: [u][1..] == [];
  }

  /** The three outputs are built task by task: on a concatenation of task results each one
      is the concatenation of its parts, so every list keeps submission order and holds one
      entry per task that produced it. */
  lemma {:induction false} PartitionAppend(a: seq<TaskResult>, b: seq<TaskResult>)
    ensures Active(a + b) == Active(a) + Active(b)
    ensures Inactive(a + b) == Inactive(a) + Inactive(b)
    ensures Crashes(a + b) == Crashes(a) + Crashes(b)
  {
    if b == [] {
      assert a + b == a;
    } else {
      var n := |b| - 1;
      assert (a + b)[..|a + b| - 1] == a + b[..n];
      assert (a + b)[|a + b| - 1] == b[n];
      PartitionAppend(a, b[..n]);
    }
  }

  /** A single task contributes one entry to the list its result picks and none to the others. */
  lemma PartitionSingleton(t: TaskResult)
    ensures Active([t]) == if t.Ok? && t.result.isActive then [ToRecord(t.result)] else []
    ensures Inactive([t]) == if t.Ok? && !t.result.isActive then [ToRecord(t.result)] else []
    ensures Crashes([t]) == if t.Crash? then [t.msg] else []
  {
    assert [t][..0] == [];
  }

  /** No task is lost or counted twice: every result lands in exactly one of the two lists
      or the crash log. */
  lemma {:induction false} PartitionComplete(s: seq<TaskResult>)
    ensures |Active(s)| + |Inactive(s)| + |Crashes(s)| == |s|
  {
    if s != [] {
      PartitionComplete(s[..|s| - 1]);
    }
  }

  /** A record is in the active list exactly when some task succeeded with a reachable URL
      and produced it. */
  lemma {:induction false} ActiveMembers(s: seq<TaskResult>, rec: Record)
    ensures rec in Active(s) <==>
            exists k :: 0 <= k < |s| && s[k].Ok? && s[k].result.isActive && ToRecord(s[k].result) == rec
  {
    if s != [] {
      var init := s[..|s| - 1];
      ActiveMembers(init, rec);
      assert forall k :: 0 <= k < |init| ==> init[k] == s[k];
    }
  }

  /** A record is in the inactive list exactly when some task succeeded with an unreachable URL
      and produced it. */
  lemma {:induction false} InactiveMembers(s: seq<TaskResult>, rec: Record)
    ensures rec in Inactive(s) <==>
            exists k :: 0 <= k < |s| && s[k].Ok? && !s[k].result.isActive && ToRecord(s[k].result) == rec
  {
    if s != [] {
      var init := s[..|s| - 1];
      InactiveMembers(init, rec);
      assert forall k :: 0 <= k < |init| ==> init[k] == s[k];
    }
  }

  /** A message is logged exactly when some task raised it. */
  lemma {:induction false} CrashMembers(s: seq<TaskResult>, msg: string)
    ensures msg in Crashes(s) <==> exists k :: 0 <= k < |s| && s[k] == Crash(msg)
  {
    if s != [] {
      var init := s[..|s| - 1];
      CrashMembers(init, msg);
      assert forall k :: 0 <= k < |init| ==> init[k] == s[k];
    }
  }

  /** The first loop of `process_urls`: one check submitted per URL, in order. The URLs have
      been through `clean_url` already, so the check's own normalisation leaves them alone. */
  method Submit(submitted: seq<string>, cfg: Config, transport: Network,
                crash: nat -> Option<string>)
    returns (futures: seq<TaskResult>)
    requires forall k :: 0 <= k < |submitted| ==> CleanUrl(submitted[k]) == submitted[k]
    ensures futures == Tasks(submitted, cfg, transport, crash)
  {
    futures := [];
    for i := 0 to |submitted|
      invariant futures == Tasks(submitted[..i], cfg, transport, crash)
    {
      var future: TaskResult;
      match crash(i) {
        case Some(msg) =>
          future := Crash(msg);
        case None =>
          var result, _, _, _ := Check(submitted[i], cfg, transport(i));
          future := Ok(result);
      }
      assert submitted[..i + 1][..i] == submitted[..i];
      futures := futures + [future];
    }
    assert submitted[..|submitted|] == submitted;
  }

  /** The second loop of `process_urls`: each result, in submission order, is appended to the
      list its `is_active` flag picks, or logged if the task raised; the progress bar advances
      once per result either way. */
  method Collect(futures: seq<TaskResult>)
    returns (active: seq<Record>, inactive: seq<Record>, errors: seq<string>, progress: nat)
    ensures active == Active(futures) && inactive == Inactive(futures) && errors == Crashes(futures)
    ensures progress == |futures|
    ensures |active| + |inactive| + |errors| == |futures|
  {
    active, inactive, errors, progress := [], [], [], 0;
    for i := 0 to |futures|
      invariant active == Active(futures[..i])
      invariant inactive == Inactive(futures[..i])
      invariant errors == Crashes(futures[..i])
      invariant progress == i
    {
      assert futures[..i + 1][..i] == futures[..i];
      match futures[i] {
        case Ok(result) =>
          var rec := ToRecord(result);
          if result.isActive {
            active := active + [rec];
          } else {
            inactive := inactive + [rec];
          }
        case Crash(msg) =>
          errors := errors + [msg];
      }
      progress := progress + 1;  // pbar.update(1) in the finally clause
    }
    assert futures[..|futures|] == futures;
    PartitionComplete(futures);
  }

  /** `process_urls`. `errors` holds the messages logged for tasks that raised and `progress`
      is the progress bar's count. The pool is created after the URLs are normalised, so a
      `concurrent_scan` below 1 makes it raise before any check is submitted. */
  method Process(urls: seq<string>, cfg: Config, transport: Network, crash: nat -> Option<string>)
    returns (outcome: Outcome, errors: seq<string>, progress: nat)
    ensures outcome.Raised? <==> cfg.concurrentScan <= 0
    ensures outcome.Raised? ==> outcome.msg == MaxWorkersError && errors == [] && progress == 0
    ensures outcome.Returned? ==> progress == |urls|
    ensures outcome.Returned? ==> |outcome.active| + |outcome.inactive| + |errors| == |urls|
    ensures outcome.Returned? ==>
              && outcome.active == Active(Tasks(Cleaned(urls), cfg, transport, crash))
              && outcome.inactive == Inactive(Tasks(Cleaned(urls), cfg, transport, crash))
              && errors == Crashes(Tasks(Cleaned(urls), cfg, transport, crash))
  {
    var cleaned := Cleaned(urls);
    forall i | 0 <= i < |cleaned| ensures cleaned[i] != [] {
      CleanUrlNonEmpty(urls[i]);
    }
    var submitted := KeepNonEmpty(cleaned);
    KeepNonEmptyDropsNothing(cleaned);
    if cfg.concurrentScan <= 0 {
      outcome, errors, progress := Raised(MaxWorkersError), [], 0;
      return;
    }

    forall k | 0 <= k < |submitted| ensures CleanUrl(submitted[k]) == submitted[k] {
      CleanUrlIdempotent(urls[k]);
    }
    var futures := Submit(submitted, cfg, transport, crash);
    if urls != [] {
      TasksAt(submitted, cfg, transport, crash, 0);
    }
    var active, inactive;
    active, inactive, errors, progress := Collect(futures);
    outcome := Returned(active, inactive);
  }
}
