/**
 * The background-job lifecycle: `processJobAsync` with the five-minute timeout it arms,
 * `updateJobStatus`, `handleJobTimeout` and `handleJobError`.
 *
 * The methods act on a `Store`; each is proved against a function on the job table, and the
 * lifecycle properties are lemmas about those functions. The timeout callback runs at one of
 * the points where `processJobAsync` awaits; `TimerFire` names that point, so one call of
 * `ProcessJobAsync` is one interleaving of the run with its timer.
 */
module JobProcessor {
  import opened Wrappers
  import opened Text
  import opened JobModel
  import opened JobErrors
  import opened Executor
  import opened JobStore

  const TimeoutMessage := "Job timeout"
  /** Five minutes, in milliseconds. */
  const JobTimeout := 5 * 60 * 1000

  /**
   * Where the timeout callback runs relative to the run: not at all (cleared in time); to
   * completion before the run marks the job `PROCESSING`; while the provider is working; or
   * across the final write, reading the job before that write and writing after it.
   */
  datatype TimerFire = NoFire | BeforeStart | DuringExecution | AcrossFinish

  /** The instants of the run's own writes and of the timer's write. */
  datatype RunTimes = RunTimes(start: Time, end: Time, timer: Time)

  // Field stamping.

  /** The `updateData` record of `updateJobStatus(status, error)`. */
  function StatusPatch(status: Status, error: Option<string>, now: Time): (p: Patch)
    ensures p.status == Some(status) && p.updatedAt == Some(now) && p.retryCount.None?
    ensures p.startedAt.Some? <==> status == Processing
    ensures p.completedAt.Some? <==> status == Completed || status == Failed
    ensures p.startedAt.Some? ==> p.startedAt == Some(now)
    ensures p.completedAt.Some? ==> p.completedAt == Some(now)
    ensures p.error.Some? <==> Truthy(error)
    ensures p.error.Some? ==> p.error == error
  {
    Patch(Some(status), None,
          if Truthy(error) then error else None,
          Some(now),
          if status == Processing then Some(now) else None,
          if status == Completed || status == Failed then Some(now) else None)
  }

  /** `updateJobStatus`: the record is written field by field, then applied to the row. */
  method UpdateJobStatus(store: Store, id: JobId, status: Status, error: Option<string>, now: Time)
    requires store.Valid()
    modifies store
    ensures store.Valid()
    ensures store.jobs == PatchTable(old(store.jobs), id, StatusPatch(status, error, now))
  {
    var update := Patch(Some(status), None, None, Some(now), None, None);
    if status == Processing {
      update := update.(startedAt := Some(now));
    } else if status == Completed || status == Failed {
      update := update.(completedAt := Some(now));
    }
    if Truthy(error) {
      update := update.(error := error);
    }
    store.Update(id, update);
  }

  // The timeout.

  /** What `handleJobTimeout` does to a record: only a `PROCESSING` job is failed, with the timeout message. */
  function TimedOut(j: Job, now: Time): (r: Job)
    ensures j.status == Processing ==>
              r == j.(status := Failed, error := Some(TimeoutMessage), completedAt := Some(now), updatedAt := now)
    ensures j.status != Processing ==> r == j
  {
    if j.status == Processing then ApplyPatch(j, StatusPatch(Failed, Some(TimeoutMessage), now)) else j
  }

  /** `handleJobTimeout` on the table: the job's record is timed out, if there is one. */
  function TimeoutEffect(t: Table, id: JobId, now: Time): (r: Table)
    ensures id in t ==> r == t[id := TimedOut(t[id], now)]
    ensures !(id in t && t[id].status == Processing) ==> r == t
    ensures WellKeyed(t) ==> WellKeyed(r)
  {
    if id in t then t[id := TimedOut(t[id], now)] else t
  }

  method HandleJobTimeout(store: Store, id: JobId, now: Time)
    requires store.Valid()
    modifies store
    ensures store.Valid()
    ensures store.jobs == TimeoutEffect(old(store.jobs), id, now)
  {
    var job := store.Read(id);
    if job.Some? && job.value.status == Processing {
      UpdateJobStatus(store, id, Failed, Some(TimeoutMessage), now);
    }
  }

  // Error handling.

  /** `retryCount < maxRetries` together with a retryable error. */
  predicate RetryAllowed(j: Job, e: Thrown) {
    IsRetryableError(e) && j.retryCount < j.maxRetries
  }

  /** A record after one of the processor's steps, and the delay of the rerun that step scheduled, if any. */
  datatype Step = Step(job: Job, retry: Option<nat>)

  /** What `handleJobError` does to a record: back to `PENDING` with one more retry while allowed, `FAILED` otherwise. */
  function ErrorStep(j: Job, e: Thrown, now: Time): (s: Step)
    ensures RetryAllowed(j, e) ==>
              s.retry == Some(Backoff(j.retryCount))
              && s.job == j.(status := Pending, retryCount := j.retryCount + 1,
                             error := Some(ErrorMessage(e)), updatedAt := now)
    ensures !RetryAllowed(j, e) ==>
              s.retry.None?
              && s.job == j.(status := Failed, error := Some(ErrorMessage(e)),
                             completedAt := Some(now), updatedAt := now)
  {
    var message := ErrorMessage(e);
    if RetryAllowed(j, e) then
      Step(ApplyPatch(j, Patch(Some(Pending), Some(j.retryCount + 1), Some(message), Some(now), None, None)),
           Some(Backoff(j.retryCount)))
    else
      Step(ApplyPatch(j, Patch(Some(Failed), None, Some(message), Some(now), None, Some(now))), None)
  }

  /** A table after some of the processor's writes, and the delay of the rerun they scheduled, if any. */
  datatype RunOutcome = RunOutcome(table: Table, retry: Option<nat>)

  /** `handleJobError` on the table: nothing happens to a job that is not there. */
  function ErrorEffect(t: Table, id: JobId, e: Thrown, now: Time): (r: RunOutcome)
    ensures id !in t ==> r.table == t && r.retry.None?
    ensures id in t ==> r == RunOutcome(t[id := ErrorStep(t[id], e, now).job], ErrorStep(t[id], e, now).retry)
  {
    if id in t then
      var s := ErrorStep(t[id], e, now);
      RunOutcome(t[id := s.job], s.retry)
    else RunOutcome(t, None)
  }

  /** `handleJobError`: retry with backoff while allowed, fail for good otherwise; returns the rerun's delay. */
  method HandleJobError(store: Store, id: JobId, e: Thrown, now: Time) returns (retry: Option<nat>)
    requires store.Valid()
    modifies store
    ensures store.Valid()
    ensures RunOutcome(store.jobs, retry) == ErrorEffect(old(store.jobs), id, e, now)
  {
    var job := store.Read(id);
    if job.None? {
      return None;
    }
    var message := if e.ErrorObject? then e.message else "Unknown error";
    if IsRetryableError(e) && job.value.retryCount < job.value.maxRetries {
      var delay := Backoff(job.value.retryCount);
      store.Update(id, Patch(Some(Pending), Some(job.value.retryCount + 1), Some(message), Some(now), None, None));
      retry := Some(delay);
    } else {
      store.Update(id, Patch(Some(Failed), None, Some(message), Some(now), None, Some(now)));
      retry := None;
    }
  }

  // One run.

  /** The first phase: the early timer, if it fires then, and the `PROCESSING` write. */
  function StartedJob(j: Job, fire: TimerFire, times: RunTimes): (r: Job)
    ensures r.status == Processing && r.startedAt == Some(times.start) && r.updatedAt == times.start
    ensures r.retryCount == j.retryCount && SameIdentity(r, j)
  {
    ApplyPatch(if fire == BeforeStart then TimedOut(j, times.timer) else j, StatusPatch(Processing, None, times.start))
  }

  /** The second phase: the timer, if it fires while the provider works. */
  function InterruptedJob(j: Job, fire: TimerFire, times: RunTimes): Job {
    if fire == DuringExecution then TimedOut(j, times.timer) else j
  }

  /** The third phase: `COMPLETED` after a success, `handleJobError` after a failure. */
  function FinishedJob(j: Job, outcome: Result<Output, Thrown>, times: RunTimes): (s: Step)
    ensures outcome.Success? ==>
              s == Step(j.(status := Completed, completedAt := Some(times.end), updatedAt := times.end), None)
    ensures outcome.Failure? ==> s == ErrorStep(j, outcome.error, times.end)
  {
    if outcome.Success? then Step(ApplyPatch(j, StatusPatch(Completed, None, times.end)), None)
    else ErrorStep(j, outcome.error, times.end)
  }

  /** The last phase: a timer that read `seen` as `PROCESSING` before the final write writes `FAILED` after it. */
  function OvertakenJob(seen: Job, j: Job, fire: TimerFire, times: RunTimes): Job {
    if fire == AcrossFinish && seen.status == Processing then
      ApplyPatch(j, StatusPatch(Failed, Some(TimeoutMessage), times.timer))
    else j
  }

  /**
   * The record after a run whose executor ends with `outcome`, interleaved with its timer as
   * `fire` says. Only a scheduled rerun changes `retryCount`, by one.
   */
  function RunJob(j: Job, outcome: Result<Output, Thrown>, fire: TimerFire, times: RunTimes): (s: Step)
    ensures SameIdentity(s.job, j)
    ensures s.retry.Some? ==> s.job.retryCount == j.retryCount + 1 && s.retry == Some(Backoff(j.retryCount))
    ensures s.retry.None? ==> s.job.retryCount == j.retryCount
  {
    var j1 := StartedJob(j, fire, times);
    var j2 := InterruptedJob(j1, fire, times);
    var f := FinishedJob(j2, outcome, times);
    Step(OvertakenJob(j2, f.job, fire, times), f.retry)
  }

  /**
   * `processJobAsync` interleaved with its timer, on the table: the executor runs on the job as
   * read after the `PROCESSING` write, and a job that is not there is left alone.
   */
  function Run(t: Table, id: JobId, provider: Provider, fire: TimerFire, times: RunTimes): (r: RunOutcome)
    ensures id !in t ==> r == RunOutcome(t, None)
  {
    if id in t then
      var s := RunJob(t[id], Execute(Some(StartedJob(t[id], fire, times)), provider).outcome, fire, times);
      RunOutcome(t[id := s.job], s.retry)
    else RunOutcome(t, None)
  }

  /** A run is decided by what the executor computes on the stored job. */
  lemma RunOnStoredJob(t: Table, id: JobId, provider: Provider, fire: TimerFire, times: RunTimes)
    requires id in t
    ensures var s := RunJob(t[id], Execute(Some(t[id]), provider).outcome, fire, times);
            Run(t, id, provider, fire, times) == RunOutcome(t[id := s.job], s.retry)
  {
    ExecuteSeesTypeAndInput(StartedJob(t[id], fire, times), t[id], provider);
  }

  /** The start of `processJobAsync`: the early timer, if it fires then, and the `PROCESSING` write. */
  method BeginRun(store: Store, id: JobId, fire: TimerFire, times: RunTimes)
    requires store.Valid()
    modifies store
    ensures store.Valid()
    ensures id in old(store.jobs) ==> store.jobs == old(store.jobs)[id := StartedJob(old(store.jobs)[id], fire, times)]
    ensures id !in old(store.jobs) ==> store.jobs == old(store.jobs)
  {
    if fire == BeforeStart {
      HandleJobTimeout(store, id, times.timer);
    }
    UpdateJobStatus(store, id, Processing, None, times.start);
  }

  /** The timer, if it fires while the provider works. */
  method InterruptRun(store: Store, id: JobId, fire: TimerFire, times: RunTimes)
    requires store.Valid()
    modifies store
    ensures store.Valid()
    ensures id in old(store.jobs) ==> store.jobs == old(store.jobs)[id := InterruptedJob(old(store.jobs)[id], fire, times)]
    ensures id !in old(store.jobs) ==> store.jobs == old(store.jobs)
  {
    if fire == DuringExecution {
      HandleJobTimeout(store, id, times.timer);
    }
  }

  /** The final write, or `handleJobError`, and a timer that read `PROCESSING` just before it. */
  method FinishRun(store: Store, id: JobId, outcome: Result<Output, Thrown>, fire: TimerFire, times: RunTimes)
    returns (retry: Option<nat>)
    requires store.Valid()
    modifies store
    ensures store.Valid()
    ensures id in old(store.jobs) ==>
              var j := old(store.jobs)[id];
              var f := FinishedJob(j, outcome, times);
              store.jobs == old(store.jobs)[id := OvertakenJob(j, f.job, fire, times)] && retry == f.retry
    ensures id !in old(store.jobs) ==> store.jobs == old(store.jobs) && retry.None?
  {
    ghost var t := store.jobs;
    var stale := false;
    if fire == AcrossFinish {
      var seen := store.Read(id);
      stale := seen.Some? && seen.value.status == Processing;
    }
    if outcome.Success? {
      UpdateJobStatus(store, id, Completed, None, times.end);
      retry := None;
    } else {
      retry := HandleJobError(store, id, outcome.error, times.end);
    }
    if id in t {
      OverwriteRecord(t, id, t[id], FinishedJob(t[id], outcome, times).job);
    }
    if stale {
      UpdateJobStatus(store, id, Failed, Some(TimeoutMessage), times.timer);
    }
  }

  /**
   * `processJobAsync`. Its executor result is used only to pick the success or the error path:
   * nothing of it is stored.
   */
  method ProcessJobAsync(store: Store, id: JobId, provider: Provider, fire: TimerFire, times: RunTimes)
    returns (retry: Option<nat>)
    requires store.Valid()
    modifies store
    ensures store.Valid()
    ensures RunOutcome(store.jobs, retry) == Run(old(store.jobs), id, provider, fire, times)
  {
    ghost var t := store.jobs;
    BeginRun(store, id, fire, times);
    var job := store.Read(id);
    var x := Execute(job, provider);
    InterruptRun(store, id, fire, times);
    retry := FinishRun(store, id, x.outcome, fire, times);
    if id in t {
      var j1 := StartedJob(t[id], fire, times);
      var j2 := InterruptedJob(j1, fire, times);
      OverwriteRecord(t, id, j1, j2);
      OverwriteRecord(t, id, j2, OvertakenJob(j2, FinishedJob(j2, x.outcome, times).job, fire, times));
    }
  }

  // Properties of a run.

  /** The executor reads only a job's type and input, which no write of the lifecycle changes. */
  lemma ExecuteSeesTypeAndInput(j1: Job, j2: Job, provider: Provider)
    requires j1.jobType == j2.jobType && j1.input == j2.input
    ensures Execute(Some(j1), provider) == Execute(Some(j2), provider)
  {
  }

  /**
   * A run touches only its own job and never writes its type, input, result or retry ceiling:
   * whatever the executor returned is dropped.
   */
  lemma ResultDiscarded(t: Table, id: JobId, provider: Provider, fire: TimerFire, times: RunTimes)
    ensures var r := Run(t, id, provider, fire, times).table;
            && r.Keys == t.Keys
            && (forall k :: k in t && k != id ==> r[k] == t[k])
            && (forall k :: k in t ==> SameIdentity(r[k], t[k]))
  {
    if id in t {
      RunOnStoredJob(t, id, provider, fire, times);
    }
  }

  /** Without its timer, a run whose executor succeeds completes the job, whatever the executor returned. */
  lemma SuccessCompletes(t: Table, id: JobId, provider: Provider, times: RunTimes)
    requires id in t
    requires Execute(Some(t[id]), provider).outcome.Success?
    ensures var r := Run(t, id, provider, NoFire, times);
            && r.retry.None?
            && r.table[id] == t[id].(status := Completed, startedAt := Some(times.start),
                                     completedAt := Some(times.end), updatedAt := times.end)
  {
    RunOnStoredJob(t, id, provider, NoFire, times);
  }

  /**
   * A timeout while the provider works fails the job, and a successful executor then
   * overwrites that `FAILED` with `COMPLETED`; the timeout's error message stays behind.
   */
  lemma TimeoutThenSuccess(t: Table, id: JobId, provider: Provider, times: RunTimes)
    requires id in t
    requires Execute(Some(t[id]), provider).outcome.Success?
    ensures var r := Run(t, id, provider, DuringExecution, times);
            && r.retry.None?
            && r.table[id].status == Completed
            && r.table[id].error == Some(TimeoutMessage)
            && r.table[id].completedAt == Some(times.end)
  {
    RunOnStoredJob(t, id, provider, DuringExecution, times);
  }

  /** A timeout while the provider works, then a retryable error: the job leaves `FAILED` for `PENDING` and is rerun. */
  lemma TimeoutThenRetry(t: Table, id: JobId, provider: Provider, times: RunTimes)
    requires id in t
    requires var x := Execute(Some(t[id]), provider);
             x.outcome.Failure? && RetryAllowed(t[id], x.outcome.error)
    ensures var r := Run(t, id, provider, DuringExecution, times);
            && r.retry == Some(Backoff(t[id].retryCount))
            && r.table[id].status == Pending
            && r.table[id].retryCount == t[id].retryCount + 1
            && r.table[id].completedAt == Some(times.timer)
  {
    RunOnStoredJob(t, id, provider, DuringExecution, times);
  }

  /**
   * A timer that read the job just before the final write fails it afterwards: a job that
   * just completed ends `FAILED` with the timeout message, so `COMPLETED` is not final either.
   */
  lemma StaleTimerOverwritesCompletion(t: Table, id: JobId, provider: Provider, times: RunTimes)
    requires id in t
    requires Execute(Some(t[id]), provider).outcome.Success?
    ensures var r := Run(t, id, provider, AcrossFinish, times);
            && r.retry.None?
            && r.table[id].status == Failed
            && r.table[id].error == Some(TimeoutMessage)
            && r.table[id].completedAt == Some(times.timer)
  {
    RunOnStoredJob(t, id, provider, AcrossFinish, times);
  }

  /** The same stale timer after a retryable error: a rerun is scheduled for a job that ends `FAILED`. */
  lemma StaleTimerAfterRetry(t: Table, id: JobId, provider: Provider, times: RunTimes)
    requires id in t
    requires var x := Execute(Some(t[id]), provider);
             x.outcome.Failure? && RetryAllowed(t[id], x.outcome.error)
    ensures var r := Run(t, id, provider, AcrossFinish, times);
            && r.retry.Some?
            && r.table[id].status == Failed
            && r.table[id].retryCount == t[id].retryCount + 1
  {
    RunOnStoredJob(t, id, provider, AcrossFinish, times);
  }

  /** A timer that fires before the job is `PROCESSING` finds nothing to do, whatever the status. */
  lemma EarlyTimerIsHarmless(t: Table, id: JobId, provider: Provider, times: RunTimes)
    requires id in t && t[id].status != Processing
    ensures Run(t, id, provider, BeforeStart, times) == Run(t, id, provider, NoFire, times)
  {
  }

  /** A run whose executor fails without calling the provider fails the job at once, without a retry. */
  lemma RejectionFails(t: Table, id: JobId, provider: Provider, times: RunTimes)
    requires id in t
    requires |Execute(Some(t[id]), provider).calls| == 0
    ensures var r := Run(t, id, provider, NoFire, times);
            && r.retry.None?
            && r.table[id].status == Failed
            && r.table[id].retryCount == t[id].retryCount
            && r.table[id].error == Some(Execute(Some(t[id]), provider).outcome.error.message)
  {
    RunOnStoredJob(t, id, provider, NoFire, times);
    RejectionNotRetryable(Some(t[id]), provider);
  }

  /** Every run, under every interleaving, keeps `retryCount <= maxRetries`. */
  lemma RunKeepsRetryCeiling(t: Table, id: JobId, provider: Provider, fire: TimerFire, times: RunTimes)
    requires id in t && t[id].retryCount <= t[id].maxRetries
    ensures var r := Run(t, id, provider, fire, times).table;
            r[id].retryCount <= r[id].maxRetries
  {
    RunCountsRetries(t, id, provider, fire, times);
  }

  /** A run increases `retryCount` by one exactly when it schedules a rerun, and otherwise leaves it. */
  lemma RunCountsRetries(t: Table, id: JobId, provider: Provider, fire: TimerFire, times: RunTimes)
    requires id in t
    ensures var r := Run(t, id, provider, fire, times);
            && (r.retry.Some? ==> r.table[id].retryCount == t[id].retryCount + 1
                                  && r.retry == Some(Backoff(t[id].retryCount)))
            && (r.retry.None? ==> r.table[id].retryCount == t[id].retryCount)
  {
    RunOnStoredJob(t, id, provider, fire, times);
  }

  /** Without its timer, a run whose executor fails behaves as `handleJobError` on the stored job says. */
  lemma FailingRun(t: Table, id: JobId, provider: Provider, times: RunTimes)
    requires id in t
    requires Execute(Some(t[id]), provider).outcome.Failure?
    ensures var e := Execute(Some(t[id]), provider).outcome.error;
            var r := Run(t, id, provider, NoFire, times);
            && (RetryAllowed(t[id], e) ==>
                  r.retry == Some(Backoff(t[id].retryCount))
                  && r.table[id].status == Pending && r.table[id].retryCount == t[id].retryCount + 1)
            && (!RetryAllowed(t[id], e) ==>
                  r.retry.None? && r.table[id].status == Failed && r.table[id].retryCount == t[id].retryCount)
  {
    RunOnStoredJob(t, id, provider, NoFire, times);
  }

  // Repeated runs.

  /** A record after rerunning without a timer for as long as reruns are scheduled (at most `fuel` more), and the delays. */
  datatype Settled = Settled(job: Job, delays: seq<nat>)

  /** The reruns of a job whose executor ends with `outcome` every time. */
  function SettleJob(j: Job, outcome: Result<Output, Thrown>, times: RunTimes, fuel: nat): (c: Settled)
    ensures SameIdentity(c.job, j)
    decreases fuel
  {
    var s := RunJob(j, outcome, NoFire, times);
    if s.retry.Some? && fuel > 0 then
      var rest := SettleJob(s.job, outcome, times, fuel - 1);
      Settled(rest.job, [s.retry.value] + rest.delays)
    else Settled(s.job, if s.retry.Some? then [s.retry.value] else [])
  }

  /** A run that schedules a rerun, while fuel is left, is followed by the reruns of its record. */
  lemma SettleJobRerun(j: Job, outcome: Result<Output, Thrown>, times: RunTimes, fuel: nat)
    requires fuel > 0 && RunJob(j, outcome, NoFire, times).retry.Some?
    ensures var s := RunJob(j, outcome, NoFire, times);
            var rest := SettleJob(s.job, outcome, times, fuel - 1);
            SettleJob(j, outcome, times, fuel) == Settled(rest.job, [s.retry.value] + rest.delays)
  {
  }

  /** A run that schedules no rerun, or one past the fuel, ends the reruns. */
  lemma SettleJobStops(j: Job, outcome: Result<Output, Thrown>, times: RunTimes, fuel: nat)
    requires fuel == 0 || RunJob(j, outcome, NoFire, times).retry.None?
    ensures var s := RunJob(j, outcome, NoFire, times);
            SettleJob(j, outcome, times, fuel) == Settled(s.job, if s.retry.Some? then [s.retry.value] else [])
  {
  }

  /** The table after the same reruns, each one a `processJobAsync` call, and the delays. */
  datatype Chain = Chain(table: Table, delays: seq<nat>)

  function RunUntilSettled(t: Table, id: JobId, provider: Provider, times: RunTimes, fuel: nat): (c: Chain)
    ensures c.table.Keys == t.Keys
    ensures forall k :: k in t && k != id ==> c.table[k] == t[k]
    decreases fuel
  {
    var r := Run(t, id, provider, NoFire, times);
    if r.retry.Some? && fuel > 0 then
      var rest := RunUntilSettled(r.table, id, provider, times, fuel - 1);
      Chain(rest.table, [r.retry.value] + rest.delays)
    else Chain(r.table, if r.retry.Some? then [r.retry.value] else [])
  }

  /** A run that schedules no rerun, or one past the fuel, ends the reruns. */
  lemma RunUntilSettledStops(t: Table, id: JobId, provider: Provider, times: RunTimes, fuel: nat)
    requires fuel == 0 || Run(t, id, provider, NoFire, times).retry.None?
    ensures var r := Run(t, id, provider, NoFire, times);
            RunUntilSettled(t, id, provider, times, fuel) == Chain(r.table, if r.retry.Some? then [r.retry.value] else [])
  {
  }

  /** A run that schedules a rerun, while fuel is left, is followed by the reruns of its table. */
  lemma RunUntilSettledRerun(t: Table, id: JobId, provider: Provider, times: RunTimes, fuel: nat)
    requires fuel > 0 && Run(t, id, provider, NoFire, times).retry.Some?
    ensures var r := Run(t, id, provider, NoFire, times);
            var rest := RunUntilSettled(r.table, id, provider, times, fuel - 1);
            RunUntilSettled(t, id, provider, times, fuel) == Chain(rest.table, [r.retry.value] + rest.delays)
  {
  }

  /** Since no run changes a job's type or input, every rerun's executor ends as the first one did. */
  lemma {:induction false} RerunsRepeatExecution(t: Table, id: JobId, provider: Provider, times: RunTimes, fuel: nat)
    requires id in t
    ensures var c := SettleJob(t[id], Execute(Some(t[id]), provider).outcome, times, fuel);
            RunUntilSettled(t, id, provider, times, fuel) == Chain(t[id := c.job], c.delays)
    decreases fuel
  {
    var o := Execute(Some(t[id]), provider).outcome;
    RunOnStoredJob(t, id, provider, NoFire, times);
    var s := RunJob(t[id], o, NoFire, times);
    var r := Run(t, id, provider, NoFire, times);
    assert r == RunOutcome(t[id := s.job], s.retry);
    if s.retry.Some? && fuel > 0 {
      var t1 := t[id := s.job];
      ExecuteSeesTypeAndInput(s.job, t[id], provider);
      assert t1[id] == s.job;
      RerunsRepeatExecution(t1, id, provider, times, fuel - 1);
      var rest := SettleJob(s.job, o, times, fuel - 1);
      OverwriteRecord(t, id, s.job, rest.job);
      RunUntilSettledRerun(t, id, provider, times, fuel);
      SettleJobRerun(t[id], o, times, fuel);
    } else {
      SettleJobStops(t[id], o, times, fuel);
      RunUntilSettledStops(t, id, provider, times, fuel);
    }
  }

  /** The backoff delays for retry counts `from` up to `to - 1`. */
  function Delays(from: nat, to: int): (ds: seq<nat>)
    ensures |ds| == (if from < to then to - from else 0)
    decreases if from < to then to - from else 0
  {
    if from < to then [Backoff(from)] + Delays(from + 1, to) else []
  }

  /** The `i`-th delay is the backoff for retry count `from + i`: one second, doubling, capped at thirty. */
  lemma {:induction false} DelaysAreBackoffs(from: nat, to: int, i: nat)
    requires i < |Delays(from, to)|
    ensures Delays(from, to)[i] == Backoff(from + i)
    ensures 1000 <= Delays(from, to)[i] <= 30000
    decreases i
  {
    if i > 0 {
      DelaysAreBackoffs(from + 1, to, i - 1);
    }
  }

  /**
   * An executor that always fails with a retryable error: the job is retried exactly
   * `maxRetries - retryCount` times, with the backoff delays in order, and then fails with
   * `retryCount == maxRetries`.
   */
  lemma {:induction false} SettlesAtCeiling(j: Job, e: Thrown, times: RunTimes, fuel: nat)
    requires j.retryCount <= j.maxRetries
    requires fuel >= j.maxRetries - j.retryCount
    requires IsRetryableError(e)
    ensures var c := SettleJob(j, Failure(e), times, fuel);
            && c.job.status == Failed
            && c.job.retryCount == j.maxRetries
            && c.delays == Delays(j.retryCount, j.maxRetries)
    decreases fuel
  {
    var s := RunJob(j, Failure(e), NoFire, times);
    if j.retryCount < j.maxRetries {
      SettlesAtCeiling(s.job, e, times, fuel - 1);
    }
  }

  /** The same for the runs themselves: a provider that keeps failing retryably is retried up to the ceiling. */
  lemma RetriesUntilCeiling(t: Table, id: JobId, provider: Provider, times: RunTimes, fuel: nat)
    requires id in t && t[id].retryCount <= t[id].maxRetries
    requires fuel >= t[id].maxRetries - t[id].retryCount
    requires var x := Execute(Some(t[id]), provider);
             x.outcome.Failure? && IsRetryableError(x.outcome.error)
    ensures var c := RunUntilSettled(t, id, provider, times, fuel);
            && c.table[id].status == Failed
            && c.table[id].retryCount == t[id].maxRetries
            && c.delays == Delays(t[id].retryCount, t[id].maxRetries)
  {
    RerunsRepeatExecution(t, id, provider, times, fuel);
    SettlesAtCeiling(t[id], Execute(Some(t[id]), provider).outcome.error, times, fuel);
  }

  /**
   * A job that fails on a 503 and then succeeds: the first run schedules a rerun after one
   * second with `retryCount` 1, and the rerun completes the job keeping `retryCount` 1.
   */
  lemma ServerErrorThenSuccess(t: Table, id: JobId, failing: Provider, working: Provider,
                               first: RunTimes, second: RunTimes)
    requires id in t && t[id].retryCount == 0 && t[id].maxRetries >= 1
    requires Execute(Some(t[id]), failing).outcome == Failure(ErrorObject("Service Unavailable", None, Some(503)))
    requires Execute(Some(t[id]), working).outcome.Success?
    ensures var r1 := Run(t, id, failing, NoFire, first);
            var r2 := Run(r1.table, id, working, NoFire, second);
            && r1.retry == Some(1000)
            && r1.table[id].status == Pending && r1.table[id].retryCount == 1
            && r2.table[id].status == Completed && r2.table[id].retryCount == 1
  {
    var r1 := Run(t, id, failing, NoFire, first);
    var e := ErrorObject("Service Unavailable", None, Some(503));
    assert RetryAllowed(t[id], e) by {
      assert IsJobError(e) && IsServerStatus(e.status);
    }
    FailingRun(t, id, failing, first);
    assert Backoff(0) == 1000 by { BackoffSchedule(0); }
    ExecuteSeesTypeAndInput(r1.table[id], t[id], working);
    SuccessCompletes(r1.table, id, working, second);
  }

  /** An `ANALYZE_FILE` job with neither file data nor content fails at once, without a retry and without a provider call. */
  lemma EmptyFileJobFails(t: Table, id: JobId, provider: Provider, times: RunTimes)
    requires id in t && t[id].jobType == AnalyzeFileType
    requires t[id].input.payload.FilePayload?
    requires !Truthy(t[id].input.payload.fileData) && !Truthy(t[id].input.payload.content)
    ensures |Execute(Some(t[id]), provider).calls| == 0
    ensures var r := Run(t, id, provider, NoFire, times);
            && r.retry.None?
            && r.table[id].status == Failed
            && r.table[id].retryCount == t[id].retryCount
            && r.table[id].error == Some(InvalidFileInput)
  {
    RejectionFails(t, id, provider, times);
  }
}
