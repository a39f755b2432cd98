/** The metrics record of utils/metrics.py: a dict of aggregate counters that is loaded over
    its defaults, updated once per job attempt with an online mean of latency, and stamped and
    persisted on every save.

    After load_metrics the dict always holds every key of DEFAULTS, so a record is one `Json`
    value per default key plus the keys of a newer or older file that DEFAULTS does not know
    (`extra`). Values keep their JSON type: a counter stored as a string or a float is carried
    as it is and converted by `int()`/`float()` when it is read. */
module Metrics {
  import opened PyValues

  const FIRST_RUN_AT := "first_run_at"
  const LAST_RUN_AT := "last_run_at"
  const TOTAL_PROCESSED := "total_processed"
  const SUCCESS_COUNT := "success_count"
  const ERROR_COUNT := "error_count"
  const AVG_LATENCY_MS := "avg_latency_ms"
  const LAST_POST_ID := "last_post_id"
  const QUEUE_DEPTH := "queue_depth"

  const KEYS := {FIRST_RUN_AT, LAST_RUN_AT, TOTAL_PROCESSED, SUCCESS_COUNT, ERROR_COUNT, AVG_LATENCY_MS, LAST_POST_ID, QUEUE_DEPTH}

  /** The eight keys are eight different strings. */
  lemma KeysDistinct()
    ensures |KEYS| == 8
  {
    assert FIRST_RUN_AT != LAST_RUN_AT && FIRST_RUN_AT[0] == 'f' && LAST_RUN_AT[0] == 'l';
    assert TOTAL_PROCESSED[0] == 't' && SUCCESS_COUNT[0] == 's' && ERROR_COUNT[0] == 'e';
    assert AVG_LATENCY_MS[0] == 'a' && QUEUE_DEPTH[0] == 'q';
    assert LAST_POST_ID[0] == 'l' && LAST_POST_ID[5] == 'p' && LAST_RUN_AT[5] == 'r';
  }

  /** DEFAULTS: no stamps, all counters zero. */
  function Defaults(): map<string, Json> {
    map[
      FIRST_RUN_AT := JNull,
      LAST_RUN_AT := JNull,
      TOTAL_PROCESSED := JInt(0),
      SUCCESS_COUNT := JInt(0),
      ERROR_COUNT := JInt(0),
      AVG_LATENCY_MS := JReal(0.0),
      LAST_POST_ID := JNull,
      QUEUE_DEPTH := JInt(0)
    ]
  }

  /** DEFAULTS holds exactly the eight keys, each once. */
  lemma DefaultsKeys()
    ensures Defaults().Keys == KEYS && |Defaults()| == 8
  {
    KeysDistinct();
  }

  /** The metrics dict, one field per key of DEFAULTS, and every other key in `extra`. */
  datatype Record = Record(
    firstRunAt: Json,
    lastRunAt: Json,
    totalProcessed: Json,
    successCount: Json,
    errorCount: Json,
    avgLatencyMs: Json,
    lastPostId: Json,
    queueDepth: Json,
    extra: map<string, Json>)

  /** The record as the dict it stands for. */
  function AsDict(r: Record): map<string, Json> {
    r.extra + map[
      FIRST_RUN_AT := r.firstRunAt,
      LAST_RUN_AT := r.lastRunAt,
      TOTAL_PROCESSED := r.totalProcessed,
      SUCCESS_COUNT := r.successCount,
      ERROR_COUNT := r.errorCount,
      AVG_LATENCY_MS := r.avgLatencyMs,
      LAST_POST_ID := r.lastPostId,
      QUEUE_DEPTH := r.queueDepth
    ]
  }

  /** The record holding the entries of a dict that has every default key. */
  function FromDict(d: map<string, Json>): Record
    requires KEYS <= d.Keys
  {
    Record(d[FIRST_RUN_AT], d[LAST_RUN_AT], d[TOTAL_PROCESSED], d[SUCCESS_COUNT], d[ERROR_COUNT],
           d[AVG_LATENCY_MS], d[LAST_POST_ID], d[QUEUE_DEPTH], map k | k in d && k !in KEYS :: d[k])
  }

  /** A dict with every default key and its record stand for each other exactly. */
  lemma DictRoundTrip(d: map<string, Json>, r: Record)
    requires KEYS <= d.Keys && r.extra.Keys !! KEYS
    ensures AsDict(FromDict(d)) == d
    ensures FromDict(d).extra.Keys !! KEYS
    ensures FromDict(AsDict(r)) == r
  {
    DictBack(d);
    RecordBack(r);
  }

  lemma DictBack(d: map<string, Json>)
    requires KEYS <= d.Keys
    ensures AsDict(FromDict(d)) == d
  {
    var back := AsDict(FromDict(d));
    assert back.Keys == d.Keys;
    forall k | k in d
      ensures back[k] == d[k]
    {
      if k !in KEYS {
        assert back[k] == FromDict(d).extra[k];
      }
    }
  }

  lemma RecordBack(r: Record)
    requires r.extra.Keys !! KEYS
    ensures FromDict(AsDict(r)) == r
  {
    var there := AsDict(r);
    assert KEYS <= there.Keys;
    assert FromDict(there).extra == r.extra;
  }

  /** What reading the metrics file gave: no file, a read or JSON error, or a parsed document. */
  datatype FileRead = Missing | Unparseable | Parsed(value: Json)

  /** The dict that is merged over the defaults: the file's own document when it parsed. */
  function StoredOrDefaults(file: FileRead): map<string, Json>
    requires file.Parsed? ==> file.value.JObject?
  {
    if file.Parsed? then file.value.fields else Defaults()
  }

  /** load_metrics, with the clock reading it stamps `first_run_at` with. A file that parses to
      anything but an object makes the merge raise a TypeError. */
  function LoadMetrics(file: FileRead, now: string): (r: Result<Record, Exception>)
    ensures r.Failure? <==> file.Parsed? && !file.value.JObject?
    ensures r.Failure? ==> r.error == TypeError
  {
    if file.Parsed? && !file.value.JObject? then Failure(TypeError)
    else
      var merged := Defaults() + StoredOrDefaults(file);
      var loaded := FromDict(merged);
      Success(if loaded.firstRunAt == JNull then loaded.(firstRunAt := JStr(now)) else loaded)
  }

  /** The loaded dict holds every default key and every stored key; stored values win over the
      defaults, and `first_run_at` is set: kept when the file had one, the clock reading
      otherwise. A missing or unreadable file gives the defaults with that stamp. */
  lemma LoadIsMerge(file: FileRead, now: string)
    requires file.Parsed? ==> file.value.JObject?
    ensures AsDict(LoadMetrics(file, now).value).Keys == Defaults().Keys + StoredOrDefaults(file).Keys
    ensures forall k :: k in StoredOrDefaults(file) && k != FIRST_RUN_AT ==>
      AsDict(LoadMetrics(file, now).value)[k] == StoredOrDefaults(file)[k]
    ensures forall k :: k in Defaults() && k !in StoredOrDefaults(file) && k != FIRST_RUN_AT ==>
      AsDict(LoadMetrics(file, now).value)[k] == Defaults()[k]
    ensures var m := StoredOrDefaults(file);
      LoadMetrics(file, now).value.firstRunAt ==
        (if FIRST_RUN_AT in m && m[FIRST_RUN_AT] != JNull then m[FIRST_RUN_AT] else JStr(now))
    ensures LoadMetrics(file, now).value.firstRunAt != JNull
    ensures !file.Parsed? ==> AsDict(LoadMetrics(file, now).value) == Defaults()[FIRST_RUN_AT := JStr(now)]
  {
    var m := StoredOrDefaults(file);
    var merged := Defaults() + m;
    var loaded := FromDict(merged);
    DictRoundTrip(merged, loaded);
    var d := AsDict(LoadMetrics(file, now).value);
    if loaded.firstRunAt == JNull {
      AsDictSetFirst(loaded, JStr(now));
      assert d == merged[FIRST_RUN_AT := JStr(now)];
    } else {
      assert d == merged;
    }
    if !file.Parsed? {
      assert merged == Defaults();
    }
  }

  lemma AsDictSetFirst(r: Record, v: Json)
    ensures AsDict(r.(firstRunAt := v)) == AsDict(r)[FIRST_RUN_AT := v]
  {
  }

  /** The record after `save_metrics` has stamped it. */
  function Stamped(r: Record, now: string): Record {
    r.(lastRunAt := JStr(now))
  }

  /** Stamping sets `last_run_at` and changes no other entry of the dict. */
  lemma StampedDict(r: Record, now: string)
    ensures AsDict(Stamped(r, now)) == AsDict(r)[LAST_RUN_AT := JStr(now)]
  {
  }

  /** The counters and the mean as `observe_attempt` reads them: `int(...)` and `float(...)` of
      the stored values. */
  function Total(r: Record): Result<int, Exception> {
    PyInt(r.totalProcessed)
  }

  function Successes(r: Record): Result<int, Exception> {
    PyInt(r.successCount)
  }

  function Errors(r: Record): Result<int, Exception> {
    PyInt(r.errorCount)
  }

  function Average(r: Record): Result<real, Exception> {
    PyFloat(r.avgLatencyMs)
  }

  /** Every value `observe_attempt` converts converts, and the total is not negative. */
  predicate WellFormed(r: Record) {
    && Total(r).Success? && Total(r).value >= 0
    && Average(r).Success?
    && Successes(r).Success?
    && Errors(r).Success?
  }

  /** The record's invariant: success_count + error_count == total_processed. */
  predicate Balanced(r: Record) {
    WellFormed(r) && Successes(r).value + Errors(r).value == Total(r).value
  }

  /** One call of observe_attempt: its arguments. */
  datatype Observation = Observation(postId: string, ok: bool, latencyMs: real, depth: int)

  /** The record after an update, and the exception the update raised, if any. A raise can
      come after some keys have already been written. */
  datatype Update = Update(rec: Record, raised: Option<Exception>)

  /** `avg` added up `n` times (subtracted for negative `n`): the product `avg * n`, defined by
      repeated addition so that sums of weights stay linear for the solver. */
  function Scale(avg: real, n: int): real
    decreases if n < 0 then -n else n
  {
    if n == 0 then 0.0 else if n > 0 then Scale(avg, n - 1) + avg else Scale(avg, n + 1) - avg
  }

  lemma {:induction false} ScaleIsProduct(avg: real, n: int)
    ensures Scale(avg, n) == avg * n as real
    decreases if n < 0 then -n else n
  {
    if n > 0 {
      ScaleIsProduct(avg, n - 1);
    } else if n < 0 {
      ScaleIsProduct(avg, n + 1);
    }
  }

  /** The online-mean step after `total` earlier samples:
      `prev_avg + (latency_ms - prev_avg) / (total + 1)`. */
  function OnlineMean(prevAvg: real, total: int, latencyMs: real): (avg: real)
    requires total != -1
    ensures Scale(avg, total + 1) == Scale(prevAvg, total) + latencyMs
  {
    var tp := (total + 1) as real;
    var step := (latencyMs - prevAvg) / tp;
    assert step * tp == latencyMs - prevAvg;
    ScaleIsProduct(prevAvg + step, total + 1);
    ScaleIsProduct(prevAvg, total);
    prevAvg + step
  }

  /** The mean times the total: the sum of every latency the record has seen. */
  function Weight(r: Record): real
    requires Average(r).Success? && Total(r).Success?
  {
    Scale(Average(r).value, Total(r).value)
  }

  /** Every conversion observe_attempt makes succeeds and `total_processed + 1` is not 0. */
  predicate Observable(r: Record) {
    && Total(r).Success? && Total(r).value != -1
    && Average(r).Success?
    && Successes(r).Success? && Errors(r).Success?
  }

  /** observe_attempt as a function of the record before the call. The keys are written in the
      code's order, so a conversion that raises part-way leaves the earlier writes in place.
      Latency is an exact real: `round(new_avg, 4)` and float precision are not modelled. */
  function Observe(r: Record, o: Observation): (u: Update)
    ensures u.raised.None? <==> Observable(r)
  {
    match Total(r)
    case Failure(e) => Update(r, Some(e))
    case Success(total) =>
      match Average(r)
      case Failure(e) => Update(r, Some(e))
      case Success(prevAvg) =>
        if total + 1 == 0 then Update(r, Some(ZeroDivisionError))
        else
          var r1 := r.(totalProcessed := JInt(total + 1),
                       avgLatencyMs := JReal(OnlineMean(prevAvg, total, o.latencyMs)));
          match Successes(r1)
          case Failure(e) => Update(r1, Some(e))
          case Success(successes) =>
            var r2 := r1.(successCount := JInt(successes + if o.ok then 1 else 0));
            match Errors(r2)
            case Failure(e) => Update(r2, Some(e))
            case Success(errors) =>
              Update(r2.(errorCount := JInt(errors + if o.ok then 0 else 1),
                         lastPostId := JStr(o.postId),
                         queueDepth := JInt(o.depth)), None)
  }

  /** A successful observe_attempt adds one to the total and one to exactly one of
      success_count / error_count, and overwrites last_post_id and queue_depth. */
  lemma ObserveCounters(r: Record, o: Observation)
    requires Observable(r)
    ensures var u := Observe(r, o);
      && Total(u.rec) == Success(Total(r).value + 1)
      && Successes(u.rec) == Success(Successes(r).value + (if o.ok then 1 else 0))
      && Errors(u.rec) == Success(Errors(r).value + (if o.ok then 0 else 1))
      && u.rec.lastPostId == JStr(o.postId)
      && u.rec.queueDepth == JInt(o.depth)
  {
  }

  /** The new mean is the online-mean step from the old mean and the old total. */
  lemma ObserveAverage(r: Record, o: Observation)
    requires Observable(r)
    ensures Average(Observe(r, o).rec) == Success(OnlineMean(Average(r).value, Total(r).value, o.latencyMs))
  {
  }

  /** The new mean times the new total is the old mean times the old total plus the latency. */
  lemma ObserveMean(r: Record, o: Observation)
    requires Observable(r)
    ensures var u := Observe(r, o);
      && Average(u.rec).Success? && Total(u.rec).Success?
      && Weight(u.rec) == Weight(r) + o.latencyMs
  {
    ObserveCounters(r, o);
    ObserveAverage(r, o);
  }

  /** observe_attempt writes only its own keys: the stamps and every key DEFAULTS does not know
      keep their values; when it raises, error_count, last_post_id and queue_depth have not
      been written yet. */
  lemma ObserveFrame(r: Record, o: Observation)
    ensures var u := Observe(r, o);
      && u.rec.firstRunAt == r.firstRunAt && u.rec.lastRunAt == r.lastRunAt && u.rec.extra == r.extra
      && (u.raised.Some? ==> u.rec.errorCount == r.errorCount && u.rec.lastPostId == r.lastPostId && u.rec.queueDepth == r.queueDepth)
  {
  }

  /** On a well-formed record observe_attempt never raises and leaves a well-formed record;
      no counter decreases. */
  lemma ObserveKeepsWellFormed(r: Record, o: Observation)
    requires WellFormed(r)
    ensures Observe(r, o).raised.None? && WellFormed(Observe(r, o).rec)
    ensures Total(Observe(r, o).rec).value > Total(r).value
    ensures Successes(Observe(r, o).rec).value >= Successes(r).value
    ensures Errors(Observe(r, o).rec).value >= Errors(r).value
  {
    ObserveCounters(r, o);
    ObserveMean(r, o);
  }

  /** success_count + error_count == total_processed survives observe_attempt. */
  lemma ObserveKeepsBalance(r: Record, o: Observation)
    requires Balanced(r)
    ensures Balanced(Observe(r, o).rec)
  {
    ObserveKeepsWellFormed(r, o);
    ObserveCounters(r, o);
  }

  /** A sequence of observe_attempt calls, stopping at the first that raises. */
  function ObserveAll(r: Record, obs: seq<Observation>): Update
    decreases |obs|
  {
    if obs == [] then Update(r, None)
    else
      var u := Observe(r, obs[0]);
      if u.raised.Some? then u else ObserveAll(u.rec, obs[1..])
  }

  function SumLatency(obs: seq<Observation>): real {
    if obs == [] then 0.0 else obs[0].latencyMs + SumLatency(obs[1..])
  }

  function CountOk(obs: seq<Observation>): (n: nat)
    ensures n <= |obs|
  {
    if obs == [] then 0 else (if obs[0].ok then 1 else 0) + CountOk(obs[1..])
  }

  /** Over any run of attempts on a well-formed record, none raises, the total grows by the
      number of attempts, success_count by the successful ones and error_count by the failed
      ones. */
  lemma {:induction false} ObserveAllCounts(r: Record, obs: seq<Observation>)
    requires WellFormed(r)
    ensures var u := ObserveAll(r, obs);
      && u.raised.None? && WellFormed(u.rec)
      && Total(u.rec).value == Total(r).value + |obs|
      && Successes(u.rec).value == Successes(r).value + CountOk(obs)
      && Errors(u.rec).value == Errors(r).value + |obs| - CountOk(obs)
    decreases |obs|
  {
    if obs != [] {
      var u := Observe(r, obs[0]);
      ObserveKeepsWellFormed(r, obs[0]);
      ObserveCounters(r, obs[0]);
      assert ObserveAll(r, obs) == ObserveAll(u.rec, obs[1..]);
      ObserveAllCounts(u.rec, obs[1..]);
    }
  }

  /** Over any run of attempts on a well-formed record, the mean times the total grows by the
      sum of the latencies: the online mean never loses a sample. */
  lemma {:induction false} ObserveAllMean(r: Record, obs: seq<Observation>)
    requires WellFormed(r)
    ensures var u := ObserveAll(r, obs);
      && u.raised.None? && WellFormed(u.rec)
      && Weight(u.rec) == Weight(r) + SumLatency(obs)
    decreases |obs|
  {
    if obs != [] {
      var u := Observe(r, obs[0]);
      ObserveKeepsWellFormed(r, obs[0]);
      ObserveMean(r, obs[0]);
      assert ObserveAll(r, obs) == ObserveAll(u.rec, obs[1..]);
      ObserveAllMean(u.rec, obs[1..]);
    }
  }

  /** The record a fresh installation starts from. */
  function DefaultRecord(): Record {
    FromDict(Defaults())
  }

  /** The defaults hold zero counters and a zero mean. */
  lemma DefaultsAreZero()
    ensures Total(DefaultRecord()) == Success(0) && Successes(DefaultRecord()) == Success(0)
    ensures Errors(DefaultRecord()) == Success(0) && Average(DefaultRecord()) == Success(0.0)
    ensures Balanced(DefaultRecord()) && Weight(DefaultRecord()) == 0.0
  {
  }

  /** The default record is the DEFAULTS dict. */
  lemma DefaultRecordDict()
    ensures AsDict(DefaultRecord()) == Defaults()
  {
    DictRoundTrip(Defaults(), DefaultRecord());
  }

  /** Starting from the defaults, the online mean is the arithmetic mean of every latency. */
  lemma MeanOfAllLatencies(obs: seq<Observation>)
    requires obs != []
    ensures Average(ObserveAll(DefaultRecord(), obs).rec) == Success(SumLatency(obs) / |obs| as real)
  {
    DefaultsAreZero();
    MeanFromEmpty(DefaultRecord(), obs);
  }

  /** From any well-formed record with no attempts yet, the online mean is the arithmetic mean. */
  lemma MeanFromEmpty(r: Record, obs: seq<Observation>)
    requires WellFormed(r) && Total(r) == Success(0) && obs != []
    ensures Average(ObserveAll(r, obs).rec) == Success(SumLatency(obs) / |obs| as real)
  {
    var last := ObserveAll(r, obs).rec;
    ObserveAllCounts(r, obs);
    ObserveAllMean(r, obs);
    AverageFromWeight(last, |obs|, SumLatency(obs));
  }

  /** A record whose total is n > 0 and whose weight is s has mean s / n. */
  lemma AverageFromWeight(r: Record, n: int, s: real)
    requires n > 0 && Total(r) == Success(n) && Average(r).Success?
    requires Weight(r) == s
    ensures Average(r) == Success(s / n as real)
  {
    var avg := Average(r).value;
    ScaleIsProduct(avg, n);
    DivideOut(avg, n, s);
  }

  lemma DivideOut(a: real, n: int, s: real)
    requires n > 0 && a * n as real == s
    ensures a == s / n as real
  {
  }

  /** A missing or unreadable file gives zero counters and a zero mean. */
  lemma LoadWithoutFile(file: FileRead, now: string)
    requires !file.Parsed?
    ensures LoadMetrics(file, now) == Success(DefaultRecord().(firstRunAt := JStr(now)))
    ensures var r := LoadMetrics(file, now).value;
      && Total(r) == Success(0) && Successes(r) == Success(0) && Errors(r) == Success(0)
      && Average(r) == Success(0.0) && Balanced(r)
  {
    DefaultsAreZero();
  }

  /** One event on the record: an observe_attempt call, or a save_metrics call with the
      snapshot it persisted. */
  datatype Event = Observed(o: Observation) | Saved(snapshot: Record)

  /** The metrics dict shared by the batch run, one field per key. `history` records every
      call made on it. */
  class Metrics {
    var firstRunAt: Json
    var lastRunAt: Json
    var totalProcessed: Json
    var successCount: Json
    var errorCount: Json
    var avgLatencyMs: Json
    var lastPostId: Json
    var queueDepth: Json
    var extra: map<string, Json>
    ghost var history: seq<Event>

    /** The dict's current contents. */
    function Contents(): Record
      reads this
    {
      Record(firstRunAt, lastRunAt, totalProcessed, successCount, errorCount, avgLatencyMs, lastPostId, queueDepth, extra)
    }

    constructor (loaded: Record)
      ensures Contents() == loaded && history == []
    {
      firstRunAt, lastRunAt := loaded.firstRunAt, loaded.lastRunAt;
      totalProcessed, successCount, errorCount := loaded.totalProcessed, loaded.successCount, loaded.errorCount;
      avgLatencyMs, lastPostId, queueDepth := loaded.avgLatencyMs, loaded.lastPostId, loaded.queueDepth;
      extra := loaded.extra;
      history := [];
    }

    /** save_metrics: stamps `last_run_at` with the clock reading and persists the whole
        record (the file write itself is not modelled; the snapshot goes to `history`). */
    method SaveMetrics(now: string)
      modifies this
      ensures Contents() == Stamped(old(Contents()), now)
      ensures history == old(history) + [Saved(Contents())]
    {
      lastRunAt := JStr(now);
      history := history + [Saved(Contents())];
    }

    /** observe_attempt: updates the dict in place, key by key, and returns the same dict. */
    method ObserveAttempt(postId: string, ok: bool, latencyMs: real, queueDepthAfter: int)
      returns (r: Result<Metrics, Exception>)
      modifies this
      ensures history == old(history) + [Observed(Observation(postId, ok, latencyMs, queueDepthAfter))]
      ensures var u := Observe(old(Contents()), Observation(postId, ok, latencyMs, queueDepthAfter));
        && Contents() == u.rec
        && r == (if u.raised.None? then Success(this) else Failure(u.raised.value))
    {
      history := history + [Observed(Observation(postId, ok, latencyMs, queueDepthAfter))];
      var total := PyInt(totalProcessed);
      if total.Failure? {
        return Failure(total.error);
      }
      var prevAvg := PyFloat(avgLatencyMs);
      if prevAvg.Failure? {
        return Failure(prevAvg.error);
      }
      if total.value + 1 == 0 {
        return Failure(ZeroDivisionError);
      }
      totalProcessed := JInt(total.value + 1);
      avgLatencyMs := JReal(OnlineMean(prevAvg.value, total.value, latencyMs));
      var successes := PyInt(successCount);
      if successes.Failure? {
        return Failure(successes.error);
      }
      successCount := JInt(successes.value + if ok then 1 else 0);
      var errors := PyInt(errorCount);
      if errors.Failure? {
        return Failure(errors.error);
      }
      errorCount := JInt(errors.value + if ok then 0 else 1);
      lastPostId := JStr(postId);
      queueDepth := JInt(queueDepthAfter);
      return Success(this);
    }
  }

  /** The scoped timer. `perf_counter` readings (seconds) are passed in. */
  class Stopwatch {
    var t0: real
    var ms: real

    constructor ()
      ensures t0 == 0.0 && ms == 0.0
    {
      t0, ms := 0.0, 0.0;
    }

    /** __enter__: remembers the start and resets the reading to 0.0. */
    method Enter(now: real)
      modifies this
      ensures t0 == now && ms == 0.0
      ensures ElapsedMs() == 0.0
    {
      t0 := now;
      ms := 0.0;
    }

    /** __exit__: the reading becomes the elapsed time in milliseconds. */
    method Exit(now: real)
      modifies this
      ensures t0 == old(t0) && ms == (now - t0) * 1000.0
      ensures ElapsedMs() == (now - old(t0)) * 1000.0
    {
      ms := (now - t0) * 1000.0;
    }

    /** The `elapsed_ms` alias: the stored reading in milliseconds. */
    function ElapsedMs(): real
      reads this
    {
      ms
    }

    /** The `seconds` property: the same reading in seconds. */
    function Seconds(): (s: real)
      reads this
      ensures s * 1000.0 == ElapsedMs()
    {
      ms / 1000.0
    }
  }
}
