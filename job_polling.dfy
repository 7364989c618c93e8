/**
 * `useJobPolling`: the client's poller for one job. Its four state variables are the fields
 * of `Poller`; each callback and each run of the polling effect is a method proved against a
 * function on `PollState`, and the properties of polling are lemmas about those functions.
 * The interval timer is not modelled as time: each `Tick` is one run of `checkStatus`.
 */
module JobPolling {
  import opened Wrappers
  import opened Text
  import opened JobModel

  /** The hook's default polling interval, in milliseconds. */
  const DefaultInterval := 2000

  const FetchStatusFailed := "Failed to fetch job status"

  /**
   * What one `checkStatus` meets: the job record from an ok response, a non-ok response, or
   * an exception whose `message` property is given (absent when the thrown value has none).
   */
  datatype Check = Fetched(job: Job) | NotOk | Threw(message: Option<string>)

  /** `COMPLETED`, `FAILED` and `CANCELLED` end the polling; `PENDING` and `PROCESSING` do not. */
  predicate IsTerminal(s: Status) {
    s == Completed || s == Failed || s == Cancelled
  }

  datatype PollState = PollState(jobId: Option<string>, jobStatus: Option<Job>, isPolling: bool, error: Option<string>)

  function Initial(): (s: PollState)
    ensures s.jobId.None? && s.jobStatus.None? && !s.isPolling && s.error.None?
  {
    PollState(None, None, false, None)
  }

  /** `stopPolling`: the job is forgotten and the flag lowered; the last status and error stay. */
  function Stopped(s: PollState): (r: PollState)
    ensures r.jobId.None? && !r.isPolling
    ensures r.jobStatus == s.jobStatus && r.error == s.error
  {
    s.(jobId := None, isPolling := false)
  }

  /** `startPolling(id)`: a fresh poll of `id`, with nothing observed yet. */
  function Started(s: PollState, id: string): (r: PollState)
    ensures r.jobId == Some(id) && r.jobStatus.None? && r.error.None? && r.isPolling
  {
    PollState(Some(id), None, true, None)
  }

  /** The effect that runs when `jobId` changes: with a job to poll it raises the flag, otherwise it does nothing. */
  function Armed(s: PollState): (r: PollState)
    ensures Truthy(s.jobId) ==> r == s.(isPolling := true)
    ensures !Truthy(s.jobId) ==> r == s
  {
    if Truthy(s.jobId) then s.(isPolling := true) else s
  }

  /**
   * `checkStatus`: a fetched record is stored and clears the error, and lowers the flag when
   * it is terminal; a failed fetch records its message and lowers the flag. The job id is never touched.
   */
  function Checked(s: PollState, c: Check): (r: PollState)
    ensures r.jobId == s.jobId
    ensures c.Fetched? ==> r.jobStatus == Some(c.job) && r.error.None?
                           && (r.isPolling <==> s.isPolling && !IsTerminal(c.job.status))
    ensures c.NotOk? ==> r.error == Some(FetchStatusFailed) && !r.isPolling && r.jobStatus == s.jobStatus
    ensures c.Threw? ==> r.error == c.message && !r.isPolling && r.jobStatus == s.jobStatus
  {
    match c
    case Fetched(job) =>
      var r := s.(jobStatus := Some(job), error := None);
      if IsTerminal(job.status) then r.(isPolling := false) else r
    case NotOk => s.(error := Some(FetchStatusFailed), isPolling := false)
    case Threw(message) => s.(error := message, isPolling := false)
  }

  /**
   * One firing of the poll whose fetch resolves before anything else happens: a check runs
   * only while there is a job id to poll. A fetch that resolves later is `Checked` on its own.
   */
  function Polled(s: PollState, c: Check): (r: PollState)
    ensures !Truthy(s.jobId) ==> r == s
    ensures Truthy(s.jobId) ==> r == Checked(s, c)
  {
    if Truthy(s.jobId) then Checked(s, c) else s
  }

  /** A sequence of firings. */
  function PolledAll(s: PollState, cs: seq<Check>): PollState
    decreases |cs|
  {
    if |cs| == 0 then s else PolledAll(Polled(s, cs[0]), cs[1..])
  }

  /** A check that ends the polling: a terminal record or a failed fetch. */
  predicate Ends(c: Check) {
    (c.Fetched? && IsTerminal(c.job.status)) || c.NotOk? || c.Threw?
  }

  class Poller {
    var jobId: Option<string>
    var jobStatus: Option<Job>
    var isPolling: bool
    var error: Option<string>

    function State(): PollState
      reads this
    {
      PollState(jobId, jobStatus, isPolling, error)
    }

    constructor()
      ensures State() == Initial()
    {
      jobId := None;
      jobStatus := None;
      isPolling := false;
      error := None;
    }

    method StopPolling()
      modifies this
      ensures State() == Stopped(old(State()))
    {
      jobId := None;
      isPolling := false;
    }

    method StartPolling(newJobId: string)
      modifies this
      ensures State() == Started(old(State()), newJobId)
    {
      jobId := Some(newJobId);
      jobStatus := None;
      error := None;
      isPolling := true;
    }

    /** The effect body up to the first check, run whenever `jobId` changes. */
    method Arm()
      modifies this
      ensures State() == Armed(old(State()))
    {
      if !Truthy(jobId) {
        return;
      }
      isPolling := true;
    }

    /**
     * The resolution of a `checkStatus` fetch. The fetch is asynchronous, so this may run after
     * `stopPolling` or `startPolling` changed the job id; it applies its answer all the same.
     */
    method CheckStatus(c: Check)
      modifies this
      ensures State() == Checked(old(State()), c)
    {
      match c
      case NotOk =>
        error := Some(FetchStatusFailed);
        isPolling := false;
      case Threw(message) =>
        error := message;
        isPolling := false;
      case Fetched(job) =>
        jobStatus := Some(job);
        error := None;
        if job.status == Completed || job.status == Failed || job.status == Cancelled {
          isPolling := false;
        }
    }

    /** The first check of the effect, or one interval firing: there is an interval only while a job id is set. */
    method Tick(c: Check)
      modifies this
      ensures State() == Polled(old(State()), c)
    {
      if Truthy(jobId) {
        CheckStatus(c);
      }
    }
  }

  // Properties of polling.

  /** Starting a poll and running its effect leaves the hook polling the new job with nothing observed. */
  lemma StartArmsPolling(s: PollState, id: string)
    requires id != ""
    ensures Armed(Started(s, id)) == PollState(Some(id), None, true, None)
  {
  }

  /** `PENDING` and `PROCESSING` records keep the flag raised; a terminal record lowers it. */
  lemma StatusDecidesFlag(s: PollState, j: Job)
    requires s.isPolling
    ensures Checked(s, Fetched(j)).isPolling <==> j.status == Pending || j.status == Processing
  {
  }

  /**
   * Once a check ends the polling, no later check raises the flag again, whatever it fetches.
   * The interval itself keeps firing, so later records are still stored.
   */
  lemma {:induction false} EndedStaysEnded(s: PollState, cs: seq<Check>)
    requires !s.isPolling
    ensures !PolledAll(s, cs).isPolling
    decreases |cs|
  {
    if |cs| > 0 {
      EndedStaysEnded(Polled(s, cs[0]), cs[1..]);
    }
  }

  lemma {:induction false} EndingCheckStopsPolling(s: PollState, c: Check, later: seq<Check>)
    requires Truthy(s.jobId) && Ends(c)
    ensures !PolledAll(s, [c] + later).isPolling
  {
    assert ([c] + later)[1..] == later;
    EndedStaysEnded(Polled(s, c), later);
  }

  /** After `stopPolling` no firing starts a new check. */
  lemma {:induction false} StoppedPollsNothing(s: PollState, cs: seq<Check>)
    ensures PolledAll(Stopped(s), cs) == Stopped(s)
    decreases |cs|
  {
    if |cs| > 0 {
      StoppedPollsNothing(s, cs[1..]);
    }
  }

  /** An interval firing after a terminal record still fetches, and stores what it sees, without raising the flag. */
  lemma StatusKeepsUpdatingAfterEnd(s: PollState, done: Job, running: Job)
    requires Truthy(s.jobId) && IsTerminal(done.status) && running.status == Processing
    ensures var r := Polled(Polled(s, Fetched(done)), Fetched(running));
            !r.isPolling && r.jobStatus == Some(running)
  {
  }

  /**
   * A terminal record of the previous job whose fetch resolves after `startPolling(id)` ends the
   * new poll: the flag is lowered and the old record shown while the new job id stays set, so
   * the interval goes on polling the new job.
   */
  lemma LateCheckEndsNewPoll(s: PollState, id: string, stale: Job)
    requires id != "" && IsTerminal(stale.status)
    ensures var r := Checked(Armed(Started(s, id)), Fetched(stale));
            r.jobId == Some(id) && !r.isPolling && r.jobStatus == Some(stale)
  {
  }
}
