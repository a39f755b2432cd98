/** The one-shot batch runner of scheduler.py: the queue is cut to `--limit` jobs, the metrics
    record is loaded, and each job is attempted in order. Every attempt is recorded with
    observe_attempt and persisted with save_metrics, whether preparing the media or posting
    raised or not; a final save stamps the record once more.

    The world outside the code is a parameter: the metrics file as it was read, the outcome of
    the media and posting collaborators for each job, the wall clock and `perf_counter`. */
module Scheduler {
  import opened PyValues
  import opened Metrics

  const ID := "id"
  const POST_ID := "post_id"
  const MEDIA_PATH := "media_path"

  /** maybe_limit: no limit, or a limit that is not positive, keeps the whole queue. */
  function MaybeLimit(queue: seq<Json>, limit: Option<int>): (r: seq<Json>)
    ensures r <= queue
    ensures |r| == if limit.None? || limit.value <= 0 || limit.value >= |queue| then |queue| else limit.value
  {
    if limit.None? || limit.value <= 0 then queue
    else if limit.value >= |queue| then queue
    else queue[..limit.value]
  }

  /** Cutting a queue that is already cut changes nothing. */
  lemma MaybeLimitIdempotent(queue: seq<Json>, limit: Option<int>)
    ensures MaybeLimit(MaybeLimit(queue, limit), limit) == MaybeLimit(queue, limit)
  {
    var once := MaybeLimit(queue, limit);
    var twice := MaybeLimit(once, limit);
    assert |twice| == |once| && twice <= once;
  }

  /** `max(0, len(queue) - (i + 1))`: how many jobs remain after job `i`. */
  function QueueLenAfter(n: int, i: int): (d: int)
    ensures d >= 0
  {
    if n - (i + 1) > 0 then n - (i + 1) else 0
  }

  /** Along a queue of n jobs the depths run n-1, n-2, ..., 0: never negative, one less at each
      step, and zero exactly at the last job. */
  lemma DepthsCountDown(n: nat, i: nat)
    requires i < n
    ensures QueueLenAfter(n, i) == n - (i + 1)
    ensures i + 1 < n ==> QueueLenAfter(n, i + 1) == QueueLenAfter(n, i) - 1
    ensures QueueLenAfter(n, i) == 0 <==> i == n - 1
  {
  }

  /** Three jobs with `--limit 2`: two jobs run, with depths 1 and then 0. */
  lemma LimitTwoOfThree(a: Json, b: Json, c: Json)
    ensures MaybeLimit([a, b, c], Some(2)) == [a, b]
    ensures QueueLenAfter(|MaybeLimit([a, b, c], Some(2))|, 0) == 1
    ensures QueueLenAfter(|MaybeLimit([a, b, c], Some(2))|, 1) == 0
  {
    var r := MaybeLimit([a, b, c], Some(2));
    assert |r| == 2 && r <= [a, b, c];
    assert r == [a, b];
  }

  /** The id a job gets when neither `id` nor `post_id` is usable: `f"idx_{i}"`. */
  function FallbackId(i: nat): string {
    "idx_" + NatToDecimal(i)
  }

  /** `str(job.get("id") or job.get("post_id") or f"idx_{i}")`. A job that is not a dict has
      no `get`: the AttributeError is raised before the attempt starts. */
  function PostId(job: Json, i: nat): (r: Result<string, Exception>)
    ensures r.Failure? <==> !job.JObject?
    ensures r.Failure? ==> r.error == AttributeError
    ensures r.Success? ==> r.value != []
  {
    if !job.JObject? then Failure(AttributeError)
    else
      var id := Get(job.fields, ID, JNull);
      var postId := Get(job.fields, POST_ID, JNull);
      Success(PyStr(if Truthy(id) then id else if Truthy(postId) then postId else JStr(FallbackId(i))))
  }

  /** A usable `id` wins; an int id reads back as the same int. */
  lemma PostIdPrefersId(fields: map<string, Json>, i: nat)
    requires ID in fields && Truthy(fields[ID])
    ensures PostId(JObject(fields), i) == Success(PyStr(fields[ID]))
    ensures fields[ID].JInt? ==> ParseInt(PostId(JObject(fields), i).value) == Some(fields[ID].i)
  {
  }

  /** An `id` that is falsy (None, "", 0, False, an empty list or dict) counts as absent. */
  lemma PostIdSkipsFalsyId(fields: map<string, Json>, i: nat)
    requires ID in fields && !Truthy(fields[ID])
    ensures PostId(JObject(fields), i) == PostId(JObject(fields - {ID}), i)
  {
    var rest := fields - {ID};
    assert ID !in rest;
    assert POST_ID != ID;
    assert Get(rest, POST_ID, JNull) == Get(fields, POST_ID, JNull);
  }

  /** Without a usable `id`, a truthy `post_id` is the name. */
  lemma PostIdFallsBackToPostId(fields: map<string, Json>, i: nat)
    requires !Truthy(Get(fields, ID, JNull)) && POST_ID in fields && Truthy(fields[POST_ID])
    ensures PostId(JObject(fields), i) == Success(PyStr(fields[POST_ID]))
  {
  }

  /** Without a usable `id` or `post_id`, the job is named after its position, and two
      positions never share a name. */
  lemma FallbackIdsDistinct(fields: map<string, Json>, i: nat, j: nat)
    requires !Truthy(Get(fields, ID, JNull)) && !Truthy(Get(fields, POST_ID, JNull))
    requires i != j
    ensures PostId(JObject(fields), i) == Success(FallbackId(i))
    ensures PostId(JObject(fields), i) != PostId(JObject(fields), j)
  {
    NatToDecimalInjective(i, j);
    assert FallbackId(i)[4..] == NatToDecimal(i);
    assert FallbackId(j)[4..] == NatToDecimal(j);
  }

  /** What the media and posting collaborators do for one job: whether each raises when it is
      called. */
  datatype Attempt = Attempt(mediaRaises: bool, postRaises: bool)

  /** A call into a collaborator, and whether it raised. */
  datatype Call = PrepareMedia(raised: bool) | PostContent(raised: bool)

  predicate HasMedia(fields: map<string, Json>) {
    Truthy(Get(fields, MEDIA_PATH, JNull))
  }

  /** The collaborator calls the try block makes: prepare_media when the job has a truthy
      media path, then post_content unless in dry-run mode or the media preparation raised. */
  function AttemptCalls(fields: map<string, Json>, dryRun: bool, a: Attempt): seq<Call> {
    var media := if HasMedia(fields) then [PrepareMedia(a.mediaRaises)] else [];
    if HasMedia(fields) && a.mediaRaises then media
    else if dryRun then media
    else media + [PostContent(a.postRaises)]
  }

  /** The `ok` flag the finally block records: the try block ran to its end. */
  function AttemptOk(fields: map<string, Json>, dryRun: bool, a: Attempt): bool {
    !(HasMedia(fields) && a.mediaRaises) && (dryRun || !a.postRaises)
  }

  /** `ok` holds exactly when no collaborator call raised; a dry run never posts, and a real run
      posts exactly when media preparation did not raise. */
  lemma AttemptOkIffNothingRaised(fields: map<string, Json>, dryRun: bool, a: Attempt)
    ensures AttemptOk(fields, dryRun, a) <==> forall c :: c in AttemptCalls(fields, dryRun, a) ==> !c.raised
    ensures dryRun ==> forall c :: c in AttemptCalls(fields, dryRun, a) ==> c.PrepareMedia?
    ensures !dryRun ==>
      ((exists c :: c in AttemptCalls(fields, dryRun, a) && c.PostContent?) <==> !(HasMedia(fields) && a.mediaRaises))
  {
    var calls := AttemptCalls(fields, dryRun, a);
    if !dryRun && !(HasMedia(fields) && a.mediaRaises) {
      assert calls[|calls| - 1] == PostContent(a.postRaises);
    }
  }

  /** Everything outside the code: the metrics file as read, the collaborators' behaviour for
      job `i`, the k-th wall-clock reading (0 for the load, i + 1 for the save after job i,
      n + 1 for the final save) and the k-th `perf_counter` reading (2i and 2i + 1 around
      job i). */
  datatype Env = Env(metricsFile: FileRead, attempt: nat -> Attempt, now: nat -> string, perf: nat -> real)

  /** The record, the calls made on it, and the exception that ended the run early, if any. */
  datatype Run = Run(rec: Record, trace: seq<Event>, crash: Option<Exception>)

  /** process_job_with_metrics for job `i`. The latency passed to observe_attempt is read from
      the stopwatch inside its `with` block, before `__exit__` has set it, so it is always the
      0.0 that `__enter__` stored. When observe_attempt raises in the finally block, the save
      is skipped and the exception leaves the job. */
  function JobStep(rec: Record, job: Json, i: nat, depth: int, dryRun: bool, env: Env): Run {
    match PostId(job, i)
    case Failure(e) => Run(rec, [], Some(e))
    case Success(postId) =>
      var o := Observation(postId, AttemptOk(job.fields, dryRun, env.attempt(i)), 0.0, depth);
      var u := Observe(rec, o);
      if u.raised.Some? then Run(u.rec, [Observed(o)], u.raised)
      else
        var saved := Stamped(u.rec, env.now(i + 1));
        Run(saved, [Observed(o), Saved(saved)], None)
  }

  /** One turn of main's loop: what processing job i does to the record. */
  type Step = (Record, nat) -> Run

  /** main's loop over the first k jobs, stopping at the first job that raises. */
  function Loop(rec: Record, k: nat, step: Step): Run {
    if k == 0 then Run(rec, [], None)
    else
      var prev := Loop(rec, k - 1, step);
      if prev.crash.Some? then prev
      else
        var r := step(prev.rec, k - 1);
        Run(r.rec, prev.trace + r.trace, r.crash)
  }

  /** The turn main takes for job i of the queue: process_job_with_metrics with the depth left
      after it (nothing past the end of the queue). */
  function JobAt(queue: seq<Json>, dryRun: bool, env: Env): Step {
    (r: Record, i: nat) =>
      if i < |queue| then JobStep(r, queue[i], i, QueueLenAfter(|queue|, i), dryRun, env)
      else Run(r, [], None)
  }

  /** main's loop over the first k jobs of the queue. */
  function RunUpTo(rec: Record, queue: seq<Json>, k: nat, dryRun: bool, env: Env): Run
    requires k <= |queue|
  {
    Loop(rec, k, JobAt(queue, dryRun, env))
  }

  /** How main ends: with exit code 0, or with an exception that escapes it. */
  datatype Status = Completed | Crashed(error: Exception)

  /** The end of a batch run: its status, the record in memory (none when loading raised) and
      every call made on the record. */
  datatype Outcome = Outcome(status: Status, record: Option<Record>, trace: seq<Event>)

  /** main, after argument parsing and queue loading. */
  function Batch(queue: seq<Json>, limit: Option<int>, dryRun: bool, env: Env): (out: Outcome)
    ensures out.record.None? <==> LoadMetrics(env.metricsFile, env.now(0)).Failure?
    ensures out.record.None? ==> out.status.Crashed? && out.trace == []
  {
    match LoadMetrics(env.metricsFile, env.now(0))
    case Failure(e) => Outcome(Crashed(e), None, [])
    case Success(loaded) =>
      var q := MaybeLimit(queue, limit);
      RunLoaded(loaded, |q|, JobAt(q, dryRun, env), env.now)
  }

  /** main once the record is loaded, over n jobs each taken by `step`, with `now` the wall
      clock: an empty queue saves at once; otherwise the loop runs, and when nothing escaped it
      the record is saved once more. */
  function RunLoaded(loaded: Record, n: nat, step: Step, now: nat -> string): (out: Outcome)
    ensures out.record.Some?
    ensures out.status == Completed ==> |out.trace| > 0 && out.trace[|out.trace| - 1] == Saved(out.record.value)
  {
    if n == 0 then
      var saved := Stamped(loaded, now(1));
      Outcome(Completed, Some(saved), [Saved(saved)])
    else
      var r := Loop(loaded, n, step);
      if r.crash.Some? then Outcome(Crashed(r.crash.value), Some(r.rec), r.trace)
      else
        var saved := Stamped(r.rec, now(n + 1));
        Outcome(Completed, Some(saved), r.trace + [Saved(saved)])
  }

  /** A job that is not a dict ends the run before anything is recorded for it. */
  lemma NonObjectJobCrashes(rec: Record, job: Json, i: nat, depth: int, dryRun: bool, env: Env)
    requires !job.JObject?
    ensures JobStep(rec, job, i, depth, dryRun, env) == Run(rec, [], Some(AttributeError))
  {
  }

  /** The finally block saves the record exactly when nothing raised: a job that completes ends
      with one observe and then the save of the record it leaves; a job that raises has made at
      most the observe, and no save. */
  lemma JobStepSavesUnlessRaised(rec: Record, job: Json, i: nat, depth: int, dryRun: bool, env: Env)
    ensures var r := JobStep(rec, job, i, depth, dryRun, env);
      && (r.crash.None? ==> |r.trace| == 2 && r.trace[0].Observed? && r.trace[1] == Saved(r.rec))
      && (r.crash.Some? ==> |r.trace| <= 1 && forall e :: e in r.trace ==> e.Observed?)
  {
  }

  /** A job on a record whose conversions succeed is recorded exactly once and saved exactly
      once, with the job's id, its `ok` flag, a zero latency and the depth after it. */
  lemma JobStepRecords(rec: Record, job: Json, i: nat, depth: int, dryRun: bool, env: Env)
    requires job.JObject? && Observable(rec)
    ensures var r := JobStep(rec, job, i, depth, dryRun, env);
      var o := Observation(PostId(job, i).value, AttemptOk(job.fields, dryRun, env.attempt(i)), 0.0, depth);
      && r.crash.None?
      && r.trace == [Observed(o), Saved(r.rec)]
      && r.rec == Stamped(Observe(rec, o).rec, env.now(i + 1))
  {
  }

  /** One job on a well-formed record: the record stays well-formed, the total grows by one,
      exactly one of the success and error counts grows by one, and the id and depth are those
      of this job. */
  lemma JobStepCounts(rec: Record, job: Json, i: nat, depth: int, dryRun: bool, env: Env)
    requires job.JObject? && WellFormed(rec)
    ensures var r := JobStep(rec, job, i, depth, dryRun, env);
      var ok := AttemptOk(job.fields, dryRun, env.attempt(i));
      && r.crash.None? && WellFormed(r.rec)
      && Total(r.rec).value == Total(rec).value + 1
      && Successes(r.rec).value == Successes(rec).value + (if ok then 1 else 0)
      && Errors(r.rec).value == Errors(rec).value + (if ok then 0 else 1)
      && r.rec.lastPostId == JStr(PostId(job, i).value)
      && r.rec.queueDepth == JInt(depth)
  {
    var o := Observation(PostId(job, i).value, AttemptOk(job.fields, dryRun, env.attempt(i)), 0.0, depth);
    ObserveKeepsWellFormed(rec, o);
    ObserveCounters(rec, o);
    JobStepRecords(rec, job, i, depth, dryRun, env);
  }

  /** One job leaves the sum of latencies (mean times total) unchanged: the latency it records
      is zero. */
  lemma JobStepWeight(rec: Record, job: Json, i: nat, depth: int, dryRun: bool, env: Env)
    requires job.JObject? && WellFormed(rec)
    ensures var r := JobStep(rec, job, i, depth, dryRun, env);
      && WellFormed(r.rec) && Weight(r.rec) == Weight(rec)
  {
    var o := Observation(PostId(job, i).value, AttemptOk(job.fields, dryRun, env.attempt(i)), 0.0, depth);
    JobStepCounts(rec, job, i, depth, dryRun, env);
    ObserveMean(rec, o);
    JobStepRecords(rec, job, i, depth, dryRun, env);
  }

  lemma AppendAssoc<T>(a: seq<T>, b: seq<T>, c: seq<T>)
    ensures a + (b + c) == (a + b) + c
  {
  }

  /** Once a job has raised, later jobs are never reached: the run stays as it was. */
  lemma {:induction false} CrashStops(rec: Record, k: nat, k2: nat, step: Step)
    requires k <= k2
    requires Loop(rec, k, step).crash.Some?
    ensures Loop(rec, k2, step) == Loop(rec, k, step)
  {
    if k2 > k {
      CrashStops(rec, k, k2 - 1, step);
    }
  }

  /** Every job is a dict. */
  predicate AllObjects(queue: seq<Json>) {
    forall j :: 0 <= j < |queue| ==> queue[j].JObject?
  }

  /** The observation main records for job j (a placeholder for a position that is no dict of
      the queue, where nothing is recorded). */
  function Recorded(queue: seq<Json>, j: nat, dryRun: bool, env: Env): Observation {
    if j < |queue| && queue[j].JObject? then
      Observation(PostId(queue[j], j).value, AttemptOk(queue[j].fields, dryRun, env.attempt(j)), 0.0, QueueLenAfter(|queue|, j))
    else Observation("", false, 0.0, 0)
  }

  /** The observations of a whole queue, job by job. */
  function Observations(queue: seq<Json>, dryRun: bool, env: Env): nat -> Observation {
    (j: nat) => Recorded(queue, j, dryRun, env)
  }

  /** How many of the first k observations are successes. */
  function Oks(obs: nat -> Observation, k: nat): (n: nat)
    ensures n <= k
  {
    if k == 0 then 0 else Oks(obs, k - 1) + (if obs(k - 1).ok then 1 else 0)
  }

  /** One turn from record r to run s, recording o: nothing raised, one observe/save pair in
      the history, the total up by one, exactly one of the success and error counts up by one,
      and the id and depth overwritten. */
  predicate Turn(r: Record, s: Run, o: Observation) {
    && WellFormed(r)
    && s.crash.None? && WellFormed(s.rec)
    && Total(s.rec).value == Total(r).value + 1
    && Successes(s.rec).value == Successes(r).value + (if o.ok then 1 else 0)
    && Errors(s.rec).value == Errors(r).value + (if o.ok then 0 else 1)
    && s.rec.lastPostId == JStr(o.postId)
    && s.rec.queueDepth == JInt(o.depth)
    && s.trace == [Observed(o), Saved(s.rec)]
  }

  /** Turn i taken from record r; the quantifiers below hang on this name only, so that they
      are instantiated where a proof asks for one turn and not at every turn a run unfolds. */
  function StepOn(step: Step, r: Record, i: nat): Run {
    step(r, i)
  }

  /** total_processed went from before's to after's by n. */
  predicate TotalGrew(before: Record, after: Record, n: nat) {
    Total(before).Success? && Total(after) == Success(Total(before).value + n)
  }

  /** Every turn for a job i < n on a well-formed record is such a turn, recording obs(i). */
  ghost predicate Observes(step: Step, n: nat, obs: nat -> Observation) {
    forall r: Record, i: nat {:trigger StepOn(step, r, i)} ::
      WellFormed(r) && i < n ==> Turn(r, StepOn(step, r, i), obs(i))
  }

  /** The latency mass (mean times total) of a well-formed record; zero for any other. */
  function Mass(r: Record): real {
    if WellFormed(r) then Weight(r) else 0.0
  }

  /** Every turn for a job i < n on a well-formed record leaves f of the record unchanged. */
  ghost predicate Keeps(step: Step, n: nat, f: Record -> real) {
    forall r: Record, i: nat {:trigger StepOn(step, r, i)} ::
      WellFormed(r) && i < n ==> f(StepOn(step, r, i).rec) == f(r)
  }

  lemma TurnAt(step: Step, n: nat, obs: nat -> Observation, r: Record, i: nat)
    requires Observes(step, n, obs) && WellFormed(r) && i < n
    ensures Turn(r, step(r, i), obs(i))
  {
    assert Turn(r, StepOn(step, r, i), obs(i));
  }

  lemma KeepsAt(step: Step, n: nat, f: Record -> real, r: Record, i: nat)
    requires Keeps(step, n, f) && WellFormed(r) && i < n
    ensures f(step(r, i).rec) == f(r)
  {
    assert f(StepOn(step, r, i).rec) == f(r);
  }

  /** process_job_with_metrics keeps that promise for every job of a run of k dicts at the head
      of the queue, whatever follows them. */
  lemma JobAtObserves(queue: seq<Json>, k: nat, dryRun: bool, env: Env)
    requires k <= |queue| && forall j :: 0 <= j < k ==> queue[j].JObject?
    ensures Observes(JobAt(queue, dryRun, env), k, Observations(queue, dryRun, env))
  {
    var step, obs := JobAt(queue, dryRun, env), Observations(queue, dryRun, env);
    forall r: Record, i: nat | WellFormed(r) && i < k
      ensures Turn(r, StepOn(step, r, i), obs(i))
    {
      var depth := QueueLenAfter(|queue|, i);
      JobStepCounts(r, queue[i], i, depth, dryRun, env);
      JobStepRecords(r, queue[i], i, depth, dryRun, env);
    }
  }

  /** process_job_with_metrics leaves the latency mass of a well-formed record unchanged,
      because the latency it records is zero. */
  lemma JobAtKeepsMass(queue: seq<Json>, dryRun: bool, env: Env)
    requires AllObjects(queue)
    ensures Keeps(JobAt(queue, dryRun, env), |queue|, Mass)
  {
    var step := JobAt(queue, dryRun, env);
    forall r: Record, i: nat | WellFormed(r) && i < |queue|
      ensures Mass(StepOn(step, r, i).rec) == Mass(r)
    {
      JobStepWeight(r, queue[i], i, QueueLenAfter(|queue|, i), dryRun, env);
    }
  }

  /** After k turns that keep the promise, on a well-formed record, nothing has raised and the
      record is still well formed. */
  lemma {:induction false} LoopSound(rec: Record, k: nat, step: Step, n: nat, obs: nat -> Observation)
    requires WellFormed(rec) && k <= n && Observes(step, n, obs)
    ensures Loop(rec, k, step).crash.None? && WellFormed(Loop(rec, k, step).rec)
  {
    if k > 0 {
      LoopSound(rec, k - 1, step, n, obs);
      var prev := Loop(rec, k - 1, step);
      TurnAt(step, n, obs, prev.rec, k - 1);
      assert Loop(rec, k, step).rec == step(prev.rec, k - 1).rec;
    }
  }

  /** After k turns that keep the promise, on a well-formed record: nothing raised, the record
      is still well formed, the total has grown by k, and the last id and depth are those job
      k - 1 records. */
  lemma {:induction false} LoopCounts(rec: Record, k: nat, step: Step, n: nat, obs: nat -> Observation)
    requires WellFormed(rec) && k <= n && Observes(step, n, obs)
    ensures var r := Loop(rec, k, step);
      && r.crash.None? && WellFormed(r.rec)
      && Total(r.rec).value == Total(rec).value + k
      && (k > 0 ==> r.rec.lastPostId == JStr(obs(k - 1).postId))
      && (k > 0 ==> r.rec.queueDepth == JInt(obs(k - 1).depth))
  {
    if k > 0 {
      LoopCounts(rec, k - 1, step, n, obs);
      var prev := Loop(rec, k - 1, step);
      TurnAt(step, n, obs, prev.rec, k - 1);
      assert Loop(rec, k, step).rec == step(prev.rec, k - 1).rec;
    }
  }

  /** After k turns that keep the promise and each keep f, f of the record is unchanged. */
  lemma {:induction false} LoopKeeps(rec: Record, k: nat, step: Step, n: nat, obs: nat -> Observation, f: Record -> real)
    requires WellFormed(rec) && k <= n && Observes(step, n, obs) && Keeps(step, n, f)
    ensures f(Loop(rec, k, step).rec) == f(rec)
  {
    if k > 0 {
      LoopKeeps(rec, k - 1, step, n, obs, f);
      LoopSound(rec, k - 1, step, n, obs);
      var prev := Loop(rec, k - 1, step);
      KeepsAt(step, n, f, prev.rec, k - 1);
      assert Loop(rec, k, step).rec == step(prev.rec, k - 1).rec;
    }
  }

  /** After k such turns, success_count has grown by the number of successes among the first k
      observations. */
  lemma {:induction false} LoopSuccesses(rec: Record, k: nat, step: Step, n: nat, obs: nat -> Observation)
    requires WellFormed(rec) && k <= n && Observes(step, n, obs)
    ensures Successes(Loop(rec, k, step).rec) == Success(Successes(rec).value + Oks(obs, k))
  {
    if k > 0 {
      LoopSuccesses(rec, k - 1, step, n, obs);
      LoopSound(rec, k - 1, step, n, obs);
      var prev := Loop(rec, k - 1, step);
      assert Successes(prev.rec) == Success(Successes(rec).value + Oks(obs, k - 1));
      assert WellFormed(prev.rec) && k - 1 < n;
      TurnAt(step, n, obs, prev.rec, k - 1);
      var s := step(prev.rec, k - 1);
      assert Successes(s.rec).value == Successes(prev.rec).value + (if obs(k - 1).ok then 1 else 0);
      assert Oks(obs, k) == Oks(obs, k - 1) + (if obs(k - 1).ok then 1 else 0);
      assert Loop(rec, k, step).rec == s.rec;
    }
  }

  /** ... and error_count by the number of failures among them. */
  lemma {:induction false} LoopErrors(rec: Record, k: nat, step: Step, n: nat, obs: nat -> Observation)
    requires WellFormed(rec) && k <= n && Observes(step, n, obs)
    ensures Errors(Loop(rec, k, step).rec) == Success(Errors(rec).value + k - Oks(obs, k))
  {
    if k > 0 {
      LoopErrors(rec, k - 1, step, n, obs);
      LoopSound(rec, k - 1, step, n, obs);
      var prev := Loop(rec, k - 1, step);
      assert Errors(prev.rec) == Success(Errors(rec).value + (k - 1) - Oks(obs, k - 1));
      assert WellFormed(prev.rec) && k - 1 < n;
      TurnAt(step, n, obs, prev.rec, k - 1);
      var s := step(prev.rec, k - 1);
      assert Errors(s.rec).value == Errors(prev.rec).value + (if obs(k - 1).ok then 0 else 1);
      assert Oks(obs, k) == Oks(obs, k - 1) + (if obs(k - 1).ok then 1 else 0);
      assert Loop(rec, k, step).rec == s.rec;
    }
  }

  /** A history of k jobs: one observe_attempt followed by one save_metrics per job, in order,
      each observe carrying that job's observation. */
  predicate Pairs(t: seq<Event>, k: nat, obs: nat -> Observation) {
    && |t| == 2 * k
    && (forall j :: 0 <= j < k ==> t[2 * j] == Observed(obs(j)))
    && (forall j :: 0 <= j < k ==> t[2 * j + 1].Saved?)
  }

  /** One more observe/save pair for job k extends such a history. */
  lemma PairsExtend(t: seq<Event>, k: nat, obs: nat -> Observation, saved: Record)
    requires Pairs(t, k, obs)
    ensures Pairs(t + [Observed(obs(k)), Saved(saved)], k + 1, obs)
  {
    var t2 := t + [Observed(obs(k)), Saved(saved)];
    forall j | 0 <= j < k + 1
      ensures t2[2 * j] == Observed(obs(j)) && t2[2 * j + 1].Saved?
    {
      if j < k {
        assert t2[2 * j] == t[2 * j] && t2[2 * j + 1] == t[2 * j + 1];
      }
    }
  }

  /** After k turns that keep the promise, the calls on the record are k observe/save pairs in
      order, each observe carrying that job's observation. */
  lemma {:induction false} LoopTrace(rec: Record, k: nat, step: Step, n: nat, obs: nat -> Observation)
    requires WellFormed(rec) && k <= n && Observes(step, n, obs)
    ensures Pairs(Loop(rec, k, step).trace, k, obs)
  {
    if k > 0 {
      LoopTrace(rec, k - 1, step, n, obs);
      assert Pairs(Loop(rec, k - 1, step).trace, k - 1, obs);
      LoopSound(rec, k - 1, step, n, obs);
      var prev := Loop(rec, k - 1, step);
      assert Pairs(prev.trace, k - 1, obs);
      TurnAt(step, n, obs, prev.rec, k - 1);
      var turn := step(prev.rec, k - 1);
      assert Loop(rec, k, step).trace == prev.trace + turn.trace;
      assert turn.trace == [Observed(obs(k - 1)), Saved(turn.rec)];
      PairsExtend(prev.trace, k - 1, obs, turn.rec);
    }
  }

  /** When the record is loaded: a file parsing to something other than a dict crashes main
      before any job runs, and nothing is saved. */
  lemma BatchLoadFails(queue: seq<Json>, limit: Option<int>, dryRun: bool, env: Env)
    requires env.metricsFile.Parsed? && !env.metricsFile.value.JObject?
    ensures Batch(queue, limit, dryRun, env) == Outcome(Crashed(TypeError), None, [])
  {
  }

  /** An empty queue (possibly after the limit) records no attempt: the loaded record is saved
      once and only its stamps differ from what was on disk. */
  lemma BatchEmptyQueue(queue: seq<Json>, limit: Option<int>, dryRun: bool, env: Env)
    requires MaybeLimit(queue, limit) == []
    requires LoadMetrics(env.metricsFile, env.now(0)).Success?
    ensures var loaded := LoadMetrics(env.metricsFile, env.now(0)).value;
      var out := Batch(queue, limit, dryRun, env);
      && out.status == Completed
      && out.record == Some(Stamped(loaded, env.now(1)))
      && out.trace == [Saved(out.record.value)]
  {
  }

  /** A non-empty run whose turns keep the promise, on a well-formed record, raises nothing,
      and main ends by stamping the loop's record with the final clock reading and saving it
      once more. */
  lemma RunLoadedShape(loaded: Record, n: nat, step: Step, obs: nat -> Observation, now: nat -> string)
    requires WellFormed(loaded) && 0 < n && Observes(step, n, obs)
    ensures var r := Loop(loaded, n, step);
      var saved := Stamped(r.rec, now(n + 1));
      && r.crash.None? && WellFormed(r.rec)
      && RunLoaded(loaded, n, step, now) == Outcome(Completed, Some(saved), r.trace + [Saved(saved)])
  {
    LoopCounts(loaded, n, step, n, obs);
  }

  /** Such a run over n jobs completes: the total has grown by n, success_count by the number
      of jobs that succeeded and error_count by the number that failed. */
  lemma RunCompleted(loaded: Record, n: nat, step: Step, obs: nat -> Observation, now: nat -> string)
    requires WellFormed(loaded) && 0 < n && Observes(step, n, obs)
    ensures var out := RunLoaded(loaded, n, step, now);
      && out.status == Completed && out.record.Some?
      && WellFormed(out.record.value)
      && TotalGrew(loaded, out.record.value, n)
      && Successes(out.record.value) == Success(Successes(loaded).value + Oks(obs, n))
      && Errors(out.record.value) == Success(Errors(loaded).value + n - Oks(obs, n))
  {
    RunLoadedShape(loaded, n, step, obs, now);
    LoopCounts(loaded, n, step, n, obs);
    LoopSuccesses(loaded, n, step, n, obs);
    LoopErrors(loaded, n, step, n, obs);
  }

  /** After such a run, last_post_id and queue_depth are those the last job recorded and
      last_run_at is the final clock reading. */
  lemma RunCompletedFields(loaded: Record, n: nat, step: Step, obs: nat -> Observation, now: nat -> string)
    requires WellFormed(loaded) && 0 < n && Observes(step, n, obs)
    ensures var out := RunLoaded(loaded, n, step, now);
      && out.record.Some?
      && out.record.value.lastPostId == JStr(obs(n - 1).postId)
      && out.record.value.queueDepth == JInt(obs(n - 1).depth)
      && out.record.value.lastRunAt == JStr(now(n + 1))
  {
    RunLoadedShape(loaded, n, step, obs, now);
    LoopCounts(loaded, n, step, n, obs);
  }

  /** After such a run, the calls on the record are one observe/save pair per job, in order,
      each observe carrying that job's observation, followed by the final save of the record
      main ends with. */
  lemma RunCompletedTrace(loaded: Record, n: nat, step: Step, obs: nat -> Observation, now: nat -> string)
    requires WellFormed(loaded) && 0 < n && Observes(step, n, obs)
    ensures var out := RunLoaded(loaded, n, step, now);
      && out.record.Some?
      && |out.trace| == 2 * n + 1
      && Pairs(out.trace[..2 * n], n, obs)
      && out.trace[2 * n] == Saved(out.record.value)
  {
    RunLoadedShape(loaded, n, step, obs, now);
    LoopTrace(loaded, n, step, n, obs);
    var r := Loop(loaded, n, step);
    assert RunLoaded(loaded, n, step, now).trace[..2 * n] == r.trace;
  }

  /** Such a run, when every turn keeps the latency mass (mean times total), leaves it where it
      was. */
  lemma RunKeepsMass(loaded: Record, n: nat, step: Step, obs: nat -> Observation, now: nat -> string)
    requires WellFormed(loaded) && 0 < n && Observes(step, n, obs) && Keeps(step, n, Mass)
    ensures var out := RunLoaded(loaded, n, step, now);
      && out.record.Some? && WellFormed(out.record.value)
      && Weight(out.record.value) == Weight(loaded)
  {
    RunLoadedShape(loaded, n, step, obs, now);
    LoopKeeps(loaded, n, step, n, obs, Mass);
    assert Mass(Loop(loaded, n, step).rec) == Weight(Loop(loaded, n, step).rec);
  }

  /** Then a completed run only dilutes the mean: the new mean is the old latency mass spread
      over the new total. */
  lemma AverageOnlyDilutes(loaded: Record, n: nat, step: Step, obs: nat -> Observation, now: nat -> string)
    requires WellFormed(loaded) && 0 < n && Observes(step, n, obs) && Keeps(step, n, Mass)
    ensures RunLoaded(loaded, n, step, now).record.Some?
    ensures Average(RunLoaded(loaded, n, step, now).record.value)
         == Success(Weight(loaded) / (Total(loaded).value + n) as real)
  {
    RunCompleted(loaded, n, step, obs, now);
    RunKeepsMass(loaded, n, step, obs, now);
    AverageFromWeight(RunLoaded(loaded, n, step, now).record.value, Total(loaded).value + n, Weight(loaded));
  }

  /** In particular a run that starts with no latency mass ends with a zero mean. */
  lemma NoMassNoMean(loaded: Record, n: nat, step: Step, obs: nat -> Observation, now: nat -> string)
    requires WellFormed(loaded) && 0 < n && Observes(step, n, obs) && Keeps(step, n, Mass)
    requires Weight(loaded) == 0.0
    ensures RunLoaded(loaded, n, step, now).record.Some?
    ensures Average(RunLoaded(loaded, n, step, now).record.value) == Success(0.0)
  {
    AverageOnlyDilutes(loaded, n, step, obs, now);
    var d := (Total(loaded).value + n) as real;
    assert d > 0.0;
    assert Weight(loaded) / d == 0.0;
  }

  /** Once the record has loaded, main is the run above over the limited queue, each turn being
      process_job_with_metrics; on a queue of dicts every turn keeps the promise. */
  lemma BatchRunsLoop(queue: seq<Json>, limit: Option<int>, dryRun: bool, env: Env)
    requires LoadMetrics(env.metricsFile, env.now(0)).Success?
    ensures var loaded, q := LoadMetrics(env.metricsFile, env.now(0)).value, MaybeLimit(queue, limit);
      && Batch(queue, limit, dryRun, env) == RunLoaded(loaded, |q|, JobAt(q, dryRun, env), env.now)
      && (AllObjects(q) ==> Observes(JobAt(q, dryRun, env), |q|, Observations(q, dryRun, env)))
  {
    var q := MaybeLimit(queue, limit);
    if AllObjects(q) {
      JobAtObserves(q, |q|, dryRun, env);
    }
  }

  /** On a record that loads, is well formed and whose success and error counts add up to its
      total, main over a non-empty queue of dicts completes with a record that still adds up. */
  lemma BatchKeepsBalance(queue: seq<Json>, limit: Option<int>, dryRun: bool, env: Env)
    requires LoadMetrics(env.metricsFile, env.now(0)).Success?
    requires Balanced(LoadMetrics(env.metricsFile, env.now(0)).value)
    requires AllObjects(MaybeLimit(queue, limit)) && MaybeLimit(queue, limit) != []
    ensures Batch(queue, limit, dryRun, env).status == Completed
    ensures Batch(queue, limit, dryRun, env).record.Some?
    ensures Balanced(Batch(queue, limit, dryRun, env).record.value)
  {
    var loaded, q := LoadMetrics(env.metricsFile, env.now(0)).value, MaybeLimit(queue, limit);
    BatchRunsLoop(queue, limit, dryRun, env);
    RunCompleted(loaded, |q|, JobAt(q, dryRun, env), Observations(q, dryRun, env), env.now);
  }

  /** On a first run (no metrics file) over any queue of dicts, the recorded mean latency is
      0.0 at the end, however long the jobs took. */
  lemma FirstRunAverageIsZero(queue: seq<Json>, limit: Option<int>, dryRun: bool, env: Env)
    requires !env.metricsFile.Parsed?
    requires AllObjects(MaybeLimit(queue, limit)) && MaybeLimit(queue, limit) != []
    ensures Batch(queue, limit, dryRun, env).record.Some?
    ensures Average(Batch(queue, limit, dryRun, env).record.value) == Success(0.0)
  {
    LoadWithoutFile(env.metricsFile, env.now(0));
    var loaded, q := LoadMetrics(env.metricsFile, env.now(0)).value, MaybeLimit(queue, limit);
    assert Weight(loaded) == 0.0;
    BatchRunsLoop(queue, limit, dryRun, env);
    JobAtKeepsMass(q, dryRun, env);
    NoMassNoMean(loaded, |q|, JobAt(q, dryRun, env), Observations(q, dryRun, env), env.now);
    var out := RunLoaded(loaded, |q|, JobAt(q, dryRun, env), env.now);
    assert Batch(queue, limit, dryRun, env) == out;
  }

  /** A turn k that raises at once, on any record, ends the run there: main crashes with that
      exception, and the history is the k observe/save pairs of the jobs before it, with no final
      save. */
  lemma RunStopsAtRaise(loaded: Record, k: nat, n: nat, step: Step, obs: nat -> Observation, e: Exception, now: nat -> string)
    requires WellFormed(loaded) && k < n && Observes(step, k, obs)
    requires forall r: Record {:trigger StepOn(step, r, k)} :: StepOn(step, r, k) == Run(r, [], Some(e))
    ensures var out := RunLoaded(loaded, n, step, now);
      && out.status == Crashed(e)
      && Pairs(out.trace, k, obs)
  {
    LoopCounts(loaded, k, step, k, obs);
    LoopTrace(loaded, k, step, k, obs);
    var prev := Loop(loaded, k, step);
    assert StepOn(step, prev.rec, k) == Run(prev.rec, [], Some(e));
    assert prev.trace + [] == prev.trace;
    assert Loop(loaded, k + 1, step) == Run(prev.rec, prev.trace, Some(e));
    CrashStops(loaded, k + 1, n, step);
  }

  /** A job that is not a dict after k dicts crashes main with AttributeError; each of the k
      jobs before it has been recorded and saved, in order, and nothing is saved after. */
  lemma NonObjectStopsRun(loaded: Record, queue: seq<Json>, k: nat, dryRun: bool, env: Env)
    requires WellFormed(loaded) && k < |queue|
    requires (forall j :: 0 <= j < k ==> queue[j].JObject?) && !queue[k].JObject?
    ensures var out := RunLoaded(loaded, |queue|, JobAt(queue, dryRun, env), env.now);
      && out.status == Crashed(AttributeError)
      && Pairs(out.trace, k, Observations(queue, dryRun, env))
  {
    var step := JobAt(queue, dryRun, env);
    JobAtObserves(queue, k, dryRun, env);
    forall r: Record
      ensures StepOn(step, r, k) == Run(r, [], Some(AttributeError))
    {
      NonObjectJobCrashes(r, queue[k], k, QueueLenAfter(|queue|, k), dryRun, env);
    }
    RunStopsAtRaise(loaded, k, |queue|, step, Observations(queue, dryRun, env), AttributeError, env.now);
  }

  /** main over a non-empty queue of dicts, on a well-formed loaded record, ends with the total
      grown by the number of jobs. */
  lemma BatchCompletedTotal(queue: seq<Json>, limit: Option<int>, dryRun: bool, env: Env, loaded: Record)
    requires LoadMetrics(env.metricsFile, env.now(0)) == Success(loaded) && WellFormed(loaded)
    requires AllObjects(MaybeLimit(queue, limit)) && MaybeLimit(queue, limit) != []
    ensures Batch(queue, limit, dryRun, env).record.Some?
    ensures TotalGrew(loaded, Batch(queue, limit, dryRun, env).record.value, |MaybeLimit(queue, limit)|)
  {
    var q := MaybeLimit(queue, limit);
    BatchRunsLoop(queue, limit, dryRun, env);
    RunCompleted(loaded, |q|, JobAt(q, dryRun, env), Observations(q, dryRun, env), env.now);
  }

  /** ... and ends with the last job's id and a queue depth of 0. */
  lemma BatchEndsAtLastJob(queue: seq<Json>, limit: Option<int>, dryRun: bool, env: Env, loaded: Record)
    requires LoadMetrics(env.metricsFile, env.now(0)) == Success(loaded) && WellFormed(loaded)
    requires AllObjects(MaybeLimit(queue, limit)) && MaybeLimit(queue, limit) != []
    ensures var q := MaybeLimit(queue, limit);
      var out := Batch(queue, limit, dryRun, env);
      && out.record.Some?
      && out.record.value.queueDepth == JInt(0)
      && out.record.value.lastPostId == JStr(PostId(q[|q| - 1], |q| - 1).value)
  {
    var q := MaybeLimit(queue, limit);
    var obs := Observations(q, dryRun, env);
    BatchRunsLoop(queue, limit, dryRun, env);
    RunCompletedFields(loaded, |q|, JobAt(q, dryRun, env), obs, env.now);
    DepthsCountDown(|q|, |q| - 1);
    assert obs(|q| - 1) == Recorded(q, |q| - 1, dryRun, env);
    var out := RunLoaded(loaded, |q|, JobAt(q, dryRun, env), env.now);
    assert Batch(queue, limit, dryRun, env) == out;
  }

  /** process_job_with_metrics: names the job, times the attempt, runs the collaborators inside
      try/except, and in the finally block records the attempt and saves the record.
      `calls` are the collaborator calls made. */
  method ProcessJob(job: Json, i: nat, queueLenAfter: int, dryRun: bool, metrics: Metrics, env: Env)
    returns (crash: Option<Exception>, ghost calls: seq<Call>)
    modifies metrics
    ensures var r := JobStep(old(metrics.Contents()), job, i, queueLenAfter, dryRun, env);
      && metrics.Contents() == r.rec
      && metrics.history == old(metrics.history) + r.trace
      && crash == r.crash
    ensures calls == if job.JObject? then AttemptCalls(job.fields, dryRun, env.attempt(i)) else []
  {
    calls := [];
    var postId := PostId(job, i);
    if postId.Failure? {
      return Some(postId.error), calls;
    }
    var sw := new Stopwatch();
    sw.Enter(env.perf(2 * i));
    var ok := false;
    // try
    var raised := false;
    var mediaPath := Get(job.fields, MEDIA_PATH, JNull);
    if Truthy(mediaPath) {
      calls := calls + [PrepareMedia(env.attempt(i).mediaRaises)];
      raised := env.attempt(i).mediaRaises;
    }
    if !raised && !dryRun {
      calls := calls + [PostContent(env.attempt(i).postRaises)];
      raised := env.attempt(i).postRaises;
    }
    if !raised {
      ok := true;
    } else {
      // except Exception
      ok := false;
    }
    // finally
    var observed := metrics.ObserveAttempt(postId.value, ok, sw.ElapsedMs(), queueLenAfter);
    if observed.Failure? {
      sw.Exit(env.perf(2 * i + 1));
      return Some(observed.error), calls;
    }
    metrics.SaveMetrics(env.now(i + 1));
    sw.Exit(env.perf(2 * i + 1));
    return None, calls;
  }

  /** main after argument parsing: `queue` is what load_queue returned. Returns how main ended
      and the record it worked on (null when loading the record raised). */
  method RunBatch(queue: seq<Json>, limit: Option<int>, dryRun: bool, env: Env)
    returns (status: Status, metrics: Metrics?)
    ensures var out := Batch(queue, limit, dryRun, env);
      && status == out.status
      && (metrics == null <==> out.record.None?)
      && (metrics != null ==> fresh(metrics) && metrics.Contents() == out.record.value && metrics.history == out.trace)
  {
    var q := MaybeLimit(queue, limit);
    var loaded := LoadMetrics(env.metricsFile, env.now(0));
    if loaded.Failure? {
      return Crashed(loaded.error), null;
    }
    BatchRunsLoop(queue, limit, dryRun, env);
    status, metrics := RunWith(loaded.value, q, dryRun, env);
  }

  /** main once the record has loaded: on an empty queue only stamps and saves it; otherwise
      runs every job and, when none raised, stamps and saves it once more. */
  method RunWith(loaded: Record, q: seq<Json>, dryRun: bool, env: Env) returns (status: Status, metrics: Metrics)
    ensures var out := RunLoaded(loaded, |q|, JobAt(q, dryRun, env), env.now);
      && status == out.status
      && out.record == Some(metrics.Contents())
      && fresh(metrics) && metrics.history == out.trace
  {
    metrics := new Metrics(loaded);
    if q == [] {
      metrics.SaveMetrics(env.now(1));
      return Completed, metrics;
    }
    ghost var run := Loop(loaded, |q|, JobAt(q, dryRun, env));
    assert RunUpTo(loaded, q, |q|, dryRun, env) == run;
    var crash := ProcessQueue(q, dryRun, metrics, env);
    assert crash == run.crash && metrics.history == run.trace;
    if crash.Some? {
      return Crashed(crash.value), metrics;
    }
    metrics.SaveMetrics(env.now(|q| + 1));
    assert metrics.history == run.trace + [Saved(Stamped(run.rec, env.now(|q| + 1)))];
    return Completed, metrics;
  }

  /** The for loop of main: each job of `q` in turn, until one raises. */
  method ProcessQueue(q: seq<Json>, dryRun: bool, metrics: Metrics, env: Env) returns (crash: Option<Exception>)
    modifies metrics
    ensures var r := RunUpTo(old(metrics.Contents()), q, |q|, dryRun, env);
      && metrics.Contents() == r.rec
      && metrics.history == old(metrics.history) + r.trace
      && crash == r.crash
  {
    ghost var start := metrics.Contents();
    crash := None;
    var i := 0;
    while i < |q| && crash.None?
      invariant 0 <= i <= |q|
      invariant crash == RunUpTo(start, q, i, dryRun, env).crash
      invariant metrics.Contents() == RunUpTo(start, q, i, dryRun, env).rec
      invariant metrics.history == old(metrics.history) + RunUpTo(start, q, i, dryRun, env).trace
    {
      ghost var prev := RunUpTo(start, q, i, dryRun, env);
      ghost var calls;
      crash, calls := ProcessJob(q[i], i, QueueLenAfter(|q|, i), dryRun, metrics, env);
      ghost var step := JobStep(prev.rec, q[i], i, QueueLenAfter(|q|, i), dryRun, env);
      AppendAssoc(old(metrics.history), prev.trace, step.trace);
      i := i + 1;
    }
    if crash.Some? {
      CrashStops(start, i, |q|, JobAt(q, dryRun, env));
    }
  }
}
