# Silhouette scheduler: batch runner and metrics record

This project models the one-shot batch runner of the Silhouette scheduler (`scheduler.py`) and
the metrics record it keeps (`utils/metrics.py`) in Dafny, and proves properties of that model.

`main` cuts the post queue to `--limit` jobs and loads the metrics dict. It then attempts each job
in order. An attempt names the job, prepares its media, and posts it (a dry run only logs). In a
`finally` block it records the attempt with `observe_attempt` and persists the record with
`save_metrics`, whether or not the attempt raised. A final save stamps the record once more. An
empty queue still loads and saves the record once.

The model has three modules.

- `PyValues` (`pyvalues.dfy`) holds the Python values the code handles:
  - JSON documents as `json.load` returns them;
  - Python truthiness;
  - the `int()`, `float()` and `str()` conversions;
  - exceptions as a `Result` carrying the exception class.
- `Metrics` (`metrics.dfy`) holds:
  - DEFAULTS;
  - `load_metrics` as a function of what reading the file gave;
  - `observe_attempt`, specified by a pure function `Observe` and implemented by the method
    `Metrics.ObserveAttempt`, which updates a `Metrics` object in place key by key;
  - `save_metrics`;
  - the `Stopwatch` class.

  A record has one field per default key, plus the keys that DEFAULTS does not know.
- `Scheduler` (`scheduler.dfy`) holds:
  - `maybe_limit`;
  - the post-id rule with its `idx_<i>` fallback;
  - `process_job_with_metrics` as the method `ProcessJob`;
  - `main` after argument parsing as the method `RunBatch`.

  The methods are proved against pure functions: `JobStep` for one job, `Loop` for the for loop
  and `Batch` for main. `Loop` takes the job step as a parameter. The lemmas about the loop and
  about a completed run hold for any step that keeps the per-job promise (`Observes`) or keeps the
  sum of latencies (`Keeps`). `JobAtObserves` and `JobAtKeepsMass` prove that
  `process_job_with_metrics` on a queue of dicts does both, and `BatchRunsLoop` proves that main
  is that loop.

The outside world is a parameter `Env`:

- the metrics file as it was read;
- for each job, whether `prepare_media` and `post_content` raise;
- the wall clock, where reading `k` is 0 for the load, `i + 1` for the save after job `i` and
  `n + 1` for the final save;
- `perf_counter`, with readings `2i` and `2i + 1` around job `i`.

Each method records the calls made on the record in a ghost `history` of events.

Python's exceptions are modelled as follows:

- A job that is not a dict makes `job.get` raise `AttributeError` before its attempt starts.
- A metrics file that parses to something other than a dict makes the merge in `load_metrics`
  raise `TypeError`.
- A counter that `int()` or `float()` cannot convert makes `observe_attempt` raise. The keys
  written before that point stay written.
- A total of -1 makes the online-mean step divide by zero.

Any of these ends the run. The model leaves out some exceptions Python can raise here; they are
listed under "## Left out".

The latency that `process_job_with_metrics` records is read from the stopwatch inside its `with`
block (`scheduler.py:113`). `__exit__` has not yet run at that point, so the value is always the
0.0 that `__enter__` stored. The model records that 0.0, and `AverageOnlyDilutes` and
`FirstRunAverageIsZero` prove the consequence: a run only dilutes the mean latency, and on a
first run it stays 0.0.

## Model

| member | source | states |
|---|---|---|
| PyValues.PyInt | utils/metrics.py:69 | `int(v)` fails exactly on null, lists, dicts and strings that are not an optionally signed digit string; strings raise ValueError, the rest TypeError; an int converts to itself |
| PyValues.PyFloat | utils/metrics.py:70 | `float(v)` fails on the same values with the same exceptions; floats and ints convert to their value |
| PyValues.FalsyValues | scheduler.py:80-88 | the falsy values that `or` skips and `if media_path` rejects are exactly None, False, 0, 0.0 and the empty string, list and dict |
| PyValues.PyStr | scheduler.py:80 | `str(v)` of a truthy value is non-empty, `int(str(i)) == i` for an int, and a string is its own `str` |
| PyValues.Truncate | utils/metrics.py:69 | `int(x)` on a float truncates toward zero: the result lies within 1 of x on x's side of zero |
| PyValues.DecimalRoundTrip | scheduler.py:80 | the decimal rendering of a natural number reads back as that number |
| PyValues.NatToDecimalInjective | scheduler.py:80 | distinct numbers render to distinct strings |
| PyValues.IntStringRoundTrip | scheduler.py:80 | `int(str(i)) == i` for every int, negative ones included |
| Metrics.KeysDistinct | utils/metrics.py:10-19 | DEFAULTS has eight distinct keys |
| Metrics.DefaultsKeys | utils/metrics.py:10-19 | DEFAULTS holds exactly the eight keys, each once |
| Metrics.DictRoundTrip | utils/metrics.py:10-19 | a dict holding every default key and its record stand for each other exactly, both ways |
| Metrics.LoadMetrics | utils/metrics.py:25-40 | loading fails exactly when the file parses to a non-dict, and then with TypeError |
| Metrics.LoadIsMerge | utils/metrics.py:25-40 | the loaded dict's keys are the defaults' keys plus the stored keys; stored values override defaults; a default key the file lacks keeps its default; `first_run_at` is kept when stored and not None, otherwise it is the clock reading, so it is never None; a missing or unreadable file gives DEFAULTS with only `first_run_at` set |
| Metrics.LoadWithoutFile | utils/metrics.py:27-34 | a missing or unreadable file loads zero counters, a zero mean and a balanced record |
| Metrics.DefaultsAreZero | utils/metrics.py:10-19 | DEFAULTS holds zero counters and a zero mean, and is balanced |
| Metrics.DefaultRecordDict | utils/metrics.py:10-19 | the default record is exactly the DEFAULTS dict |
| Metrics.StampedDict | utils/metrics.py:44 | stamping sets `last_run_at` to the clock reading and changes no other key |
| Metrics.Metrics.SaveMetrics | utils/metrics.py:42-44 | the record becomes the stamped record, and exactly that snapshot is appended to the history of saves |
| Metrics.OnlineMean | utils/metrics.py:69-71 | the online-mean step keeps the sum of samples: new mean × (total + 1) = old mean × total + latency |
| Metrics.Observe | utils/metrics.py:59-79 | `observe_attempt` raises exactly when a conversion fails or the new total is 0 |
| Metrics.ObserveCounters | utils/metrics.py:73-78 | a successful update adds one to the total and one to exactly the counter its `ok` selects, and sets `last_post_id` and `queue_depth` |
| Metrics.ObserveAverage | utils/metrics.py:70-74 | the new mean is the online-mean step from the old mean and the old total |
| Metrics.ObserveMean | utils/metrics.py:69-74 | the new mean times the new total is the old mean times the old total plus the latency |
| Metrics.ObserveFrame | utils/metrics.py:73-78 | the stamps and unknown keys never change; on a raise, `error_count`, `last_post_id` and `queue_depth` are not yet written |
| Metrics.ObserveKeepsWellFormed | utils/metrics.py:69-78 | on a well-formed record the update never raises, keeps it well formed, strictly grows the total, and never decreases a counter |
| Metrics.ObserveKeepsBalance | utils/metrics.py:73-76 | success_count + error_count == total_processed is preserved |
| Metrics.ObserveAllCounts | utils/metrics.py:69-78 | over any sequence of attempts the total grows by their number, successes by the successful ones, errors by the rest |
| Metrics.ObserveAllMean | utils/metrics.py:69-74 | over any sequence of attempts the mean times the total grows by the sum of the latencies |
| Metrics.MeanFromEmpty | utils/metrics.py:69-74 | from a record with no attempts, the online mean equals the arithmetic mean of all latencies |
| Metrics.MeanOfAllLatencies | utils/metrics.py:10-19 | starting from DEFAULTS, the online mean is the arithmetic mean of every latency observed |
| Metrics.Metrics.ObserveAttempt | utils/metrics.py:59-79 | the in-place update leaves the record `Observe` specifies, returns the same dict or the raised exception, and logs the call |
| Metrics.Stopwatch.Enter | utils/metrics.py:89-92 | entering stores the start reading and resets the milliseconds to 0.0, so `elapsed_ms` (the alias at utils/metrics.py:101-104) reads 0.0 until Exit |
| Metrics.Stopwatch.Exit | utils/metrics.py:94-95 | leaving sets the milliseconds to the elapsed time × 1000, and `elapsed_ms` then reads that elapsed time |
| Metrics.Stopwatch.Seconds | utils/metrics.py:97-99 | the `seconds` property is the millisecond reading divided by 1000: times 1000 it gives `elapsed_ms` back |
| Scheduler.MaybeLimit | scheduler.py:56-59 | the result is a prefix of the queue, the whole queue when the limit is absent or not positive, and `limit` jobs otherwise when there are that many |
| Scheduler.MaybeLimitIdempotent | scheduler.py:56-59 | limiting twice is limiting once |
| Scheduler.QueueLenAfter | scheduler.py:147 | the depth after a job is never negative |
| Scheduler.DepthsCountDown | scheduler.py:145-148 | along n jobs the depths are n-1 down to 0, one less each step, and 0 exactly at the last job |
| Scheduler.LimitTwoOfThree | scheduler.py:56-59 | three jobs with limit 2 run the first two, with depths 1 then 0 |
| Scheduler.PostId | scheduler.py:80 | naming fails exactly for a non-dict job, with AttributeError; a name is never empty |
| Scheduler.PostIdPrefersId | scheduler.py:80 | a truthy `id` is the name, and an int id reads back as the same int |
| Scheduler.PostIdSkipsFalsyId | scheduler.py:80 | a falsy `id` counts as absent |
| Scheduler.PostIdFallsBackToPostId | scheduler.py:80 | without a usable `id`, a truthy `post_id` is the name |
| Scheduler.FallbackIdsDistinct | scheduler.py:80 | without a usable `id` or `post_id` a job is named `idx_<i>`, and distinct positions get distinct names |
| Scheduler.AttemptOkIffNothingRaised | scheduler.py:84-106 | `ok` holds exactly when no collaborator call raised; a dry run never posts; a real run posts exactly when media preparation did not raise |
| Scheduler.NonObjectJobCrashes | scheduler.py:80 | a non-dict job raises before anything is recorded or saved |
| Scheduler.JobStepSavesUnlessRaised | scheduler.py:108-116 | the finally block saves exactly when nothing raised: a completed job makes one observe then the save of the record it leaves; a job that raised made at most the observe and no save |
| Scheduler.JobStepRecords | scheduler.py:108-116 | a job is recorded once, then saved once, with its id, its `ok` flag, zero latency and its depth |
| Scheduler.JobStepCounts | scheduler.py:108-116 | one job on a well-formed record completes, keeps the record well formed, grows the total by one and exactly one of the success and error counts, and sets the job's id and depth |
| Scheduler.JobStepWeight | scheduler.py:108-116 | one job on a well-formed record leaves it well formed and leaves the sum of latencies (mean × total) unchanged |
| Scheduler.CrashStops | scheduler.py:145-148 | once a job raises, no later job runs: the run after any later job is the run at the crash |
| Scheduler.JobAtObserves | scheduler.py:145-148 | for each of the first k jobs, when those are dicts (whatever follows them), the turn for job i on any well-formed record completes, adds one to the total and to the counter its `ok` flag selects, sets job i's id and depth, and records one observe/save pair for job i |
| Scheduler.JobAtKeepsMass | scheduler.py:145-148 | on a queue of dicts, no turn changes the sum of latencies of a well-formed record |
| Scheduler.LoopSound | scheduler.py:145-148 | after k turns that keep the promise, on a well-formed record, nothing has raised and the record is still well formed |
| Scheduler.LoopCounts | scheduler.py:145-148 | after k such turns nothing has raised, the record is well formed, the total grew by k, and the last id and depth are job k - 1's |
| Scheduler.LoopKeeps | scheduler.py:145-148 | a quantity that every turn keeps is kept by k turns |
| Scheduler.LoopSuccesses | scheduler.py:145-148 | after k turns `success_count` grew by the number of successful jobs among the first k |
| Scheduler.LoopErrors | scheduler.py:145-148 | after k turns `error_count` grew by the number of failed jobs among the first k |
| Scheduler.LoopTrace | scheduler.py:145-148 | after k turns the history is k observe/save pairs in queue order, each observe carrying that job's id, flag, zero latency and depth |
| Scheduler.BatchLoadFails | scheduler.py:133-141 | a metrics file that is not a dict crashes main at its load (line 136 for an empty queue, line 141 otherwise) before any job runs, and nothing is saved |
| Scheduler.BatchEmptyQueue | scheduler.py:133-138 | an empty queue completes and saves the loaded record once, stamped |
| Scheduler.Batch | scheduler.py:127-153 | main ends without a record exactly when loading the record raised, and then it crashed having saved nothing |
| Scheduler.RunLoaded | scheduler.py:133-151 | once loaded, main always holds a record, and when it completes its history ends with the save of that record |
| Scheduler.RunLoadedShape | scheduler.py:141-151 | over n > 0 such jobs nothing raises, and main completes with the looped record stamped and saved once more at the end of the history |
| Scheduler.RunCompleted | scheduler.py:141-151 | a run over n such jobs completes with a well-formed record: total +n, successes + the successful jobs, errors + the failed ones |
| Scheduler.RunCompletedFields | scheduler.py:141-151 | after the run the last id and depth are the last job's, and `last_run_at` is the final clock reading |
| Scheduler.RunCompletedTrace | scheduler.py:141-151 | the history is 2n + 1 events: n observe/save pairs in queue order, then the final save of the record main returns |
| Scheduler.RunKeepsMass | scheduler.py:141-151 | a completed run leaves the sum of latencies unchanged |
| Scheduler.AverageOnlyDilutes | scheduler.py:113 | after a completed run the mean is the old mean × old total spread over the new total |
| Scheduler.NoMassNoMean | scheduler.py:113 | a run that starts with no latency mass ends with mean 0.0 |
| Scheduler.RunStopsAtRaise | scheduler.py:145-148 | a job that raises at once ends main with that exception; the history is the observe/save pairs of the jobs before it, and there is no final save |
| Scheduler.NonObjectStopsRun | scheduler.py:145-151 | a non-dict job after k dicts crashes main with AttributeError, after each of those k jobs was recorded and saved in order |
| Scheduler.BatchRunsLoop | scheduler.py:131-148 | once the record loads, main is the loop above over the limited queue with `process_job_with_metrics` as each turn, and on a queue of dicts every turn is a completed, recorded one |
| Scheduler.BatchKeepsBalance | scheduler.py:127-153 | on a loaded record whose success and error counts add up to its total, main over a non-empty queue of dicts completes with a record that still adds up |
| Scheduler.BatchCompletedTotal | scheduler.py:127-153 | main over a non-empty queue of dicts on a well-formed loaded record ends with the total grown by the number of jobs |
| Scheduler.BatchEndsAtLastJob | scheduler.py:145-151 | ... and with the last job's id and a queue depth of 0 |
| Scheduler.FirstRunAverageIsZero | scheduler.py:113 | on a first run, the recorded mean latency is 0.0 at the end whatever the jobs took |
| Scheduler.ProcessJob | scheduler.py:64-116 | the record and history become what `JobStep` specifies and the crash is its crash; the collaborator calls are the ones `AttemptCalls` specifies, and none for a non-dict job |
| Scheduler.ProcessQueue | scheduler.py:145-148 | the loop leaves the record, history and crash that `RunUpTo` specifies for the whole queue |
| Scheduler.RunWith | scheduler.py:133-151 | after the load, main's status, record and history are those of `RunLoaded`, on a freshly allocated record |
| Scheduler.RunBatch | scheduler.py:127-153 | main's status, record (none when loading raised) and history are those of `Batch`, on a freshly allocated record |

## Left out

- The file system is not modelled. Reading the queue and metrics files, JSON (de)serialisation and
  the atomic temp-file write and rename in `save_metrics` are outside the model. The metrics file
  is a parameter (missing, unreadable, or a parsed document). A save cannot fail in the model.
- `load_queue` is not modelled. The queue is a parameter, the list `load_queue` returned.
- `log_action` and every `print` are left out. The model assumes they never raise. `log_action`
  catches a failed file write, but its `print` (scheduler.py:31) is outside that `try`. If it
  raised inside a job's `try` (lines 94, 97), `ok` would become False. If it raised in the
  `except` block (lines 102, 105), the `finally` block would still record `ok=False` and save,
  and then main would end without its final save at line 151. If it raised at lines 134, 142 or
  152, main would end there.
- `parse_args` is left out. `--limit` and `--dry-run` are parameters.
- Scheduler.ProcessJob: only exceptions derived from `Exception` are modelled from `prepare_media`
  and `post_content`. A `BaseException` such as KeyboardInterrupt or SystemExit escapes the
  `except Exception` at scheduler.py:101. The `finally` block would still record `ok=False` and
  save, and then main would end without its final save. In the model every raise from them is
  caught and the loop goes on.
- PyValues.PyInt, PyValues.PyFloat: OverflowError (`int(inf)`, `float` of a huge int) and the
  ValueError of `int(nan)` are not modelled, because reals in the model are exact and finite.
- `prepare_media` and `post_content` are foreign code. Each job's `Attempt` says whether each
  raises. Their return values and the text posted are not modelled.
- Wall-clock and `perf_counter` readings are parameters. Their string and float formats are not
  modelled.
- Metrics.OnlineMean: latency is an exact real, so `round(new_avg, 4)` and float rounding are not
  modelled.
- PyValues.PyInt: strings are parsed as an optional sign followed by ASCII digits. Surrounding
  whitespace, underscores, and non-ASCII digits are not accepted.
- PyValues.PyFloat: strings are parsed as integers only. Decimal, exponent, `inf` and `nan`
  strings are not accepted, and infinities are not modelled.
- PyValues.PyStr: floats, lists and dicts are rendered as fixed markers, not as Python's `repr`.
- Metrics.Observe: the `.get(key, default)` defaults in `observe_attempt` are never reached. After
  `load_metrics` every default key is present, and the record has one field per key.
- Metrics.Stopwatch.Enter: a `Stopwatch` starts with both readings 0.0. In Python the attributes
  do not exist until `__enter__`, which the code always calls first.
- Neither scheduler.py nor utils/metrics.py contains a due-time evaluator or a polling loop. The
  model has none.
