/**
 * The job record kept in the `jobs` table, its typed input payloads, and the partial
 * field updates (`update({...}).eq('id', jobId)`) that the processor writes.
 */
module JobModel {
  import opened Wrappers
  import opened Text
  import opened Entities

  type JobId = string

  /** A timestamp. The source writes ISO strings from `new Date()`; only their identity matters here. */
  type Time = nat

  datatype Status = Pending | Processing | Completed | Failed | Cancelled

  /** The stored spelling of a status. */
  function StatusName(s: Status): string {
    match s
    case Pending => "PENDING"
    case Processing => "PROCESSING"
    case Completed => "COMPLETED"
    case Failed => "FAILED"
    case Cancelled => "CANCELLED"
  }

  lemma StatusNameInjective(a: Status, b: Status)
    ensures StatusName(a) == StatusName(b) <==> a == b
  {
  }

  /** The three job types the executor dispatches on. */
  const AnalyzeVideoType := "ANALYZE_VIDEO"
  const AnalyzeFileType := "ANALYZE_FILE"
  const GenerateScenarioType := "GENERATE_SCENARIO"

  /**
   * The shape of a job's `input`. The first three are the shapes the type guards accept for
   * the three job types; `OtherPayload` is any JSON value none of them accepts.
   */
  datatype Payload =
    | VideoPayload(url: string, mode: string)
    | FilePayload(mode: string, content: Option<string>, fileData: Option<string>,
                  fileType: Option<string>, filename: Option<string>)
    | ScenarioPayload(styles: seq<Excerpt>, sources: seq<Excerpt>, chatHistory: seq<ChatLine>)
    | OtherPayload

  /** `input._metadata`, the client's note of which placeholder entry the job fills. */
  datatype Metadata = Metadata(itemId: Option<string>, targetTab: Option<string>)

  datatype Input = Input(payload: Payload, metadata: Option<Metadata>)

  /** What an executor run produces: `{content}` for the analyses, `{scenario}` for generation. */
  datatype Output = ContentOutput(content: string) | ScenarioOutput(scenario: string)

  datatype Job = Job(
    id: JobId,
    jobType: string,
    status: Status,
    input: Input,
    result: Option<Output>,
    error: Option<string>,
    retryCount: nat,
    maxRetries: int,
    createdAt: Time,
    updatedAt: Time,
    startedAt: Option<Time>,
    completedAt: Option<Time>)

  /** The job table, keyed by id. */
  type Table = map<JobId, Job>

  /** Every record is stored under its own id. */
  predicate WellKeyed(t: Table) {
    forall k :: k in t ==> t[k].id == k
  }

  /** A partial update: each present field is written, each absent one is left as it is. */
  datatype Patch = Patch(
    status: Option<Status>,
    retryCount: Option<nat>,
    error: Option<string>,
    updatedAt: Option<Time>,
    startedAt: Option<Time>,
    completedAt: Option<Time>)

  function ApplyPatch(j: Job, p: Patch): Job {
    j.(status := p.status.GetOr(j.status),
       retryCount := p.retryCount.GetOr(j.retryCount),
       error := if p.error.Some? then p.error else j.error,
       updatedAt := p.updatedAt.GetOr(j.updatedAt),
       startedAt := if p.startedAt.Some? then p.startedAt else j.startedAt,
       completedAt := if p.completedAt.Some? then p.completedAt else j.completedAt)
  }

  /**
   * The columns no lifecycle update writes: the id, the type, the input, the result, the
   * retry ceiling and the creation time.
   */
  predicate SameIdentity(a: Job, b: Job) {
    a.id == b.id && a.jobType == b.jobType && a.input == b.input && a.result == b.result
    && a.maxRetries == b.maxRetries && a.createdAt == b.createdAt
  }

  /** `update(p).eq('id', id)`: writes the record with that id, and nothing when there is none. */
  function PatchTable(t: Table, id: JobId, p: Patch): (r: Table)
    ensures WellKeyed(t) ==> WellKeyed(r)
  {
    if id in t then t[id := ApplyPatch(t[id], p)] else t
  }

  /** An update touches only the record it names, and never its identity columns. */
  lemma PatchTableFrame(t: Table, id: JobId, p: Patch)
    ensures var r := PatchTable(t, id, p);
            && r.Keys == t.Keys
            && (forall k :: k in t && k != id ==> r[k] == t[k])
            && (forall k :: k in t ==> SameIdentity(r[k], t[k]))
  {
  }

  /** A second write to the same record replaces the first. */
  lemma OverwriteRecord(t: Table, id: JobId, a: Job, b: Job)
    ensures t[id := a][id := b] == t[id := b]
  {
  }

  /** `select('*').eq('id', id).single()`. */
  function Lookup(t: Table, id: JobId): Option<Job> {
    if id in t then Some(t[id]) else None
  }
}
