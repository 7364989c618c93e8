# YouTube scenario notebook: a verified model of its core

The application is a notebook for writing YouTube scripts. A user collects *styles* and
*sources*, which can be analyses of videos or documents or hand-written notes. The user
chats with a language model over the selected entries, and has a two-stage draft-then-refine
prompt turn them into a scenario. Long analyses run as background *jobs*: records in a `jobs`
table that a processor takes from `PENDING` through `PROCESSING` to `COMPLETED` or `FAILED`,
with a five-minute timeout and retries with exponential backoff. A client hook polls one job.
Another hook reattaches running jobs to their placeholder entries after a reload.

This project models the following parts of the client and server:

- the job lifecycle (`JobProcessor`, over `JobModel`, `JobErrors`, `Executor` and `JobStore`);
- the `/api/jobs` endpoint (`JobsRoute`);
- the polling and restore hooks (`JobPolling`, `JobRestore`);
- the prompt templates (`Prompts`);
- the page's handlers (`Page`);
- the streaming chat endpoint (`ChatRoute`);
- the two list-bookkeeping hooks (`Crud`, `SupabaseData`).

Code that changes state step by step is imperative Dafny, proved against a function on the
state it changes:

- the processor's updates of the job table;
- the hooks' state variables;
- the page's state;
- the stream controller.

The properties are lemmas about those functions. Purely computed code is written as
functions: prompts, error classification, the YouTube-id patterns and the formatters.

Modelling conventions:

- The language-model provider is an arbitrary function from requests to replies, so every
  property holds whatever it answers.
- HTTP requests that a hook makes are parameters that say what the request met: a non-ok
  response, a parsed body, or an exception.
- Timers are events. The five-minute timeout runs at one of the points where
  `processJobAsync` awaits (`TimerFire`), and each firing of the polling interval is one `Tick`.
- Timestamps (`new Date()`, `generateTimestamp`, `Date.now`) are parameters.
- `JSON.parse(data).content` in the chat decoder is a parameter `contentOf`. The round-trip
  lemmas assume it reads back what `JSON.stringify({ content })` wrote (`ParsesContent`).

Three facts of the code are modelled as written and stated as lemmas:

- **The executor's result is never stored.** `ResultDiscarded` states it.
- **Terminal states are not absorbing.** A timeout's `FAILED` can be overwritten by
  `COMPLETED`, or by a retry's `PENDING` (`TimeoutThenSuccess`, `TimeoutThenRetry`). A stale
  timer can fail a job that just completed (`StaleTimerOverwritesCompletion`).
- **`moveSource` from the styles keeps only the styles with the moved id.** The filter at
  `page.tsx:337` keeps matches instead of dropping them (`MoveStyleToSource`).

Where descriptions of the system and the code differ, the model follows the code. For
example, a successful `POST /api/jobs` answers with status 200, the default.

## Model

| member | source | states |
|---|---|---|
| JobErrors.ErrorMessage | frontend/src/lib/job-processor.ts:272 | the message is `error.message` for an `Error` and `Unknown error` for anything else |
| JobErrors.RetryableCases | frontend/src/lib/job-processor.ts:303-326 | only objects with a string `message` can be retryable; among them, exactly the `NETWORK_TIMEOUT` code, a status in [500, 600), or a message containing `ECONNRESET` or `ETIMEDOUT` |
| JobErrors.MessageMentionRetryable | frontend/src/lib/job-processor.ts:314-315 | a job error whose message has `ECONNRESET` or `ETIMEDOUT` anywhere in it is retryable |
| JobErrors.Pow2 | frontend/src/lib/job-processor.ts:276 | `2 ** n` is at least 1 |
| JobErrors.Pow2Monotone | frontend/src/lib/job-processor.ts:276 | `2 ** n` is non-decreasing in `n` |
| JobErrors.Backoff | frontend/src/lib/job-processor.ts:276 | the retry delay lies in [1000, 30000] ms |
| JobErrors.BackoffSchedule | frontend/src/lib/job-processor.ts:276 | the delay is 1, 2, 4, 8, 16 s for retry counts 0 to 4, and 30 s from 5 on; each step doubles it or reaches the cap, and it never decreases |
| JobModel.StatusNameInjective | frontend/src/lib/job-processor.ts:225 | distinct statuses are stored under distinct names |
| JobModel.PatchTable | frontend/src/lib/job-processor.ts:243 | a row update keeps every record under its own id |
| JobModel.PatchTableFrame | frontend/src/lib/job-processor.ts:243 | `update(...).eq('id', id)` changes only that record, adds or removes no rows, and never writes the id, type, input, result, retry ceiling or creation time |
| Executor.ReplyText | frontend/src/lib/job-processor.ts:103 | the reply text is the content when truthy, otherwise the empty string |
| Executor.VideoPromptsAreAnalyzePrompts | frontend/src/lib/job-processor.ts:85-87 | the processor's video prompts are `analyzePrompts.style` and `analyzePrompts.source`, chosen by `mode == 'style'` |
| Executor.FileRequest | frontend/src/lib/job-processor.ts:107-171 | the PDF branch is taken iff `fileData` is truthy and the type is `application/pdf`; it sends a file part named by `filename` or `document.pdf`, with the parser plugin. Otherwise the text branch is taken iff `content` is truthy, and the content is placed after the mode's prompt. Otherwise no request is made |
| Executor.ChatLineTexts | frontend/src/lib/job-processor.ts:184-186 | each chat message becomes `role: content`, one per message, in order |
| Executor.Execute | frontend/src/lib/job-processor.ts:51-81 | a missing job, an unknown type or an input of the wrong shape is rejected with its fixed message before any provider call; at most two calls are made; every call but the last was answered; the last call decides the outcome; generation yields `{scenario}` and the analyses yield `{content}` |
| Executor.ScenarioCallOrder | frontend/src/lib/job-processor.ts:173-219 | the draft request is made first; the refine request follows iff the draft was answered, and it embeds the draft's text and the chat history verbatim |
| Executor.FileBranches | frontend/src/lib/job-processor.ts:107-171 | an `ANALYZE_FILE` job makes one parser call on the PDF branch, one text call on the text branch, and otherwise fails with `Invalid file input` without a call |
| Executor.ValidationMessageNotRetryable | frontend/src/lib/job-processor.ts:58-79 | the executor's own rejection messages are never retryable |
| Executor.NotRetryableByChar | frontend/src/lib/job-processor.ts:314-315 | a message without `C` and without `M` is not retryable |
| Executor.NotRetryableByPair | frontend/src/lib/job-processor.ts:314-315 | a message without `M` and with no `E` directly before a `C` is not retryable |
| Executor.RejectionNotRetryable | frontend/src/lib/job-processor.ts:58-79 | whatever the provider does, a run that makes no provider call fails with an error that is not retryable |
| JobStore.NewestFirstOf | frontend/src/app/api/jobs/route.ts:12-15 | the listing holds exactly the given records, each once, newest `createdAt` first |
| JobStore.Store.Read | frontend/src/lib/job-processor.ts:248-252 | a single-row read returns the record with that id, or nothing when there is none |
| JobStore.Store.Update | frontend/src/lib/job-processor.ts:243 | the table becomes `PatchTable` of the old table |
| JobStore.Store.Insert | frontend/src/app/api/jobs/route.ts:47-56 | an insert adds exactly one record with the given columns and the column defaults (no result, no error, `retryCount` 0, the default ceiling); a fault or a taken id leaves the table unchanged |
| JobStore.Store.Query | frontend/src/app/api/jobs/route.ts:12-21 | the query returns exactly the matching records, each once, newest first, or an error on a fault |
| JobProcessor.StatusPatch | frontend/src/lib/job-processor.ts:228-241 | `updatedAt` is always written; `startedAt` only for `PROCESSING`; `completedAt` only for `COMPLETED` and `FAILED`; `error` only when a truthy error string is given; `retryCount` never |
| JobProcessor.UpdateJobStatus | frontend/src/lib/job-processor.ts:222-244 | the table becomes the old table with that record updated by `StatusPatch` |
| JobProcessor.TimedOut | frontend/src/lib/job-processor.ts:254-255 | only a `PROCESSING` job changes, to `FAILED` with `Job timeout` and a completion time; any other status is untouched |
| JobProcessor.TimeoutEffect | frontend/src/lib/job-processor.ts:247-257 | a missing job, or a job in any status but `PROCESSING`, leaves the table unchanged |
| JobProcessor.HandleJobTimeout | frontend/src/lib/job-processor.ts:247-257 | the table becomes `TimeoutEffect` of the old table |
| JobProcessor.ErrorStep | frontend/src/lib/job-processor.ts:272-300 | while the error is retryable and `retryCount < maxRetries`: `PENDING`, `retryCount + 1`, the error message, and a rerun after `Backoff(retryCount)`. Otherwise: `FAILED`, the message and a completion time, with `retryCount` unchanged and no rerun |
| JobProcessor.ErrorEffect | frontend/src/lib/job-processor.ts:264-270 | a missing job is not written and gets no rerun |
| JobProcessor.HandleJobError | frontend/src/lib/job-processor.ts:259-301 | the table and the scheduled delay are those of `ErrorEffect` |
| JobProcessor.StartedJob | frontend/src/lib/job-processor.ts:36-41 | after the start write the job is `PROCESSING` with a start time, whether or not an early timer fired |
| JobProcessor.FinishedJob | frontend/src/lib/job-processor.ts:42-45 | success writes `COMPLETED` with a completion time and no result; failure is `handleJobError` |
| JobProcessor.RunJob | frontend/src/lib/job-processor.ts:33-49 | a run never writes the identity columns; `retryCount` grows by one exactly when a rerun is scheduled, after `Backoff(retryCount)` |
| JobProcessor.Run | frontend/src/lib/job-processor.ts:33-49 | a run on a missing job changes nothing |
| JobProcessor.RunOnStoredJob | frontend/src/lib/job-processor.ts:41-45 | a run is decided by what the executor computes on the stored job |
| JobProcessor.BeginRun | frontend/src/lib/job-processor.ts:36-41 | the early timer, if it fires, and the `PROCESSING` write turn the job's record into `StartedJob`; a missing job is untouched |
| JobProcessor.InterruptRun | frontend/src/lib/job-processor.ts:36-42 | a timer firing while the executor works turns the record into `InterruptedJob`; a missing job is untouched |
| JobProcessor.FinishRun | frontend/src/lib/job-processor.ts:43-45 | the record becomes `FinishedJob`, overwritten with `FAILED` by a timer that read `PROCESSING` just before; the rerun delay is `FinishedJob`'s; a missing job is untouched and gets no rerun |
| JobProcessor.ProcessJobAsync | frontend/src/lib/job-processor.ts:33-49 | the table and the rerun delay are those of `Run`, for every interleaving with the timer |
| JobProcessor.ExecuteSeesTypeAndInput | frontend/src/lib/job-processor.ts:60-80 | the executor depends only on the job's type and input |
| JobProcessor.ResultDiscarded | frontend/src/lib/job-processor.ts:42-43 | a run touches only its own job and never writes `result` or the other identity columns |
| JobProcessor.SuccessCompletes | frontend/src/lib/job-processor.ts:41-43 | without the timer, a successful run ends `COMPLETED` with start and completion times and no rerun |
| JobProcessor.TimeoutThenSuccess | frontend/src/lib/job-processor.ts:36-43 | a timeout during execution followed by success ends `COMPLETED`, still carrying `Job timeout` |
| JobProcessor.TimeoutThenRetry | frontend/src/lib/job-processor.ts:36-45 | a timeout during execution followed by a retryable error takes the job from `FAILED` back to `PENDING`, with one more retry |
| JobProcessor.StaleTimerOverwritesCompletion | frontend/src/lib/job-processor.ts:247-257 | a timer that read `PROCESSING` just before completion writes `FAILED` over `COMPLETED` |
| JobProcessor.StaleTimerAfterRetry | frontend/src/lib/job-processor.ts:247-257 | the same stale timer after a retry leaves a job that is `FAILED` yet has a rerun scheduled |
| JobProcessor.EarlyTimerIsHarmless | frontend/src/lib/job-processor.ts:254 | a timer that fires before the job is `PROCESSING` has no effect |
| JobProcessor.RejectionFails | frontend/src/lib/job-processor.ts:58-79 | an input the executor rejects fails the job at once, with its message, without a retry |
| JobProcessor.RunKeepsRetryCeiling | frontend/src/lib/job-processor.ts:275 | `retryCount <= maxRetries` is preserved by every run under every interleaving |
| JobProcessor.RunCountsRetries | frontend/src/lib/job-processor.ts:276-288 | `retryCount` grows by one exactly when a rerun is scheduled, with delay `Backoff(retryCount)` |
| JobProcessor.FailingRun | frontend/src/lib/job-processor.ts:275-300 | without the timer, a failing run retries when allowed and otherwise fails with `retryCount` unchanged |
| JobProcessor.SettleJob | frontend/src/lib/job-processor.ts:288 | a chain of reruns never writes the identity columns |
| JobProcessor.SettleJobRerun | frontend/src/lib/job-processor.ts:288 | a run that schedules a rerun is followed by the reruns of its record, its delay first |
| JobProcessor.SettleJobStops | frontend/src/lib/job-processor.ts:289-300 | a run without a rerun ends the chain |
| JobProcessor.RunUntilSettledRerun | frontend/src/lib/job-processor.ts:288 | a run that schedules a rerun is followed by the chain of `processJobAsync` calls on its table, its delay first |
| JobProcessor.RunUntilSettled | frontend/src/lib/job-processor.ts:288 | a chain of reruns touches only its own job |
| JobProcessor.RunUntilSettledStops | frontend/src/lib/job-processor.ts:289-300 | a run without a rerun ends the chain of `processJobAsync` calls |
| JobProcessor.RerunsRepeatExecution | frontend/src/lib/job-processor.ts:288 | every rerun's executor ends as the first one did, since no write changes the type or input |
| JobProcessor.Delays | frontend/src/lib/job-processor.ts:276 | there is one delay per retry count from `retryCount` to `maxRetries - 1` |
| JobProcessor.DelaysAreBackoffs | frontend/src/lib/job-processor.ts:276 | the i-th delay is the backoff for retry count `from + i`, within [1 s, 30 s] |
| JobProcessor.SettlesAtCeiling | frontend/src/lib/job-processor.ts:275-300 | an error that is always retryable is retried exactly `maxRetries - retryCount` times, with the backoff delays in order, then fails with `retryCount == maxRetries` |
| JobProcessor.RetriesUntilCeiling | frontend/src/lib/job-processor.ts:275-300 | the same for the chain of `processJobAsync` calls |
| JobProcessor.ServerErrorThenSuccess | frontend/src/lib/job-processor.ts:275-288 | a 503 then a success: a rerun after 1 s with `retryCount` 1, then `COMPLETED` with `retryCount` 1 |
| JobProcessor.EmptyFileJobFails | frontend/src/lib/job-processor.ts:150-170 | a file job with neither file data nor content fails at once with `Invalid file input`, without a call or a retry |
| JobsRoute.StatusCode | frontend/src/app/api/jobs/route.ts:23-30 | error replies carry their code; listings and acceptances are sent with 200 |
| JobsRoute.Post | frontend/src/app/api/jobs/route.ts:34-76 | a falsy `type` or `input` gives 400 and inserts nothing; a store error gives 500 and inserts nothing; otherwise exactly one `PENDING` record is inserted, the reply carries its `jobId`, `PENDING` and `createdAt`, and processing starts for that job only |
| JobsRoute.StatusFilter | frontend/src/app/api/jobs/route.ts:17-19 | the listing is narrowed iff the `status` parameter is truthy, and then by that value |
| JobsRoute.Get | frontend/src/app/api/jobs/route.ts:6-32 | a store error gives 500 `Failed to fetch jobs`; otherwise exactly the matching jobs, each once, newest first |
| JobsRoute.ListingFilter | frontend/src/app/api/jobs/route.ts:17-19 | with a status, exactly the jobs with that status are listed; without one, all jobs |
| JobsRoute.ProcessingListing | frontend/src/app/api/jobs/route.ts:17-19 | `?status=PROCESSING` lists exactly the `PROCESSING` jobs |
| JobPolling.Initial | frontend/src/hooks/useJobPolling.ts:22-25 | the hook starts with no job, no status, no error, not polling |
| JobPolling.Stopped | frontend/src/hooks/useJobPolling.ts:27-30 | `stopPolling` clears the job id and the flag and keeps the status and the error |
| JobPolling.Started | frontend/src/hooks/useJobPolling.ts:32-37 | `startPolling` sets the job id, clears the status and the error, and raises the flag |
| JobPolling.Armed | frontend/src/hooks/useJobPolling.ts:39-42 | the effect raises the flag iff there is a job id |
| JobPolling.Checked | frontend/src/hooks/useJobPolling.ts:44-63 | a fetched record is stored and clears the error, and lowers the flag iff it is terminal; a non-ok response records `Failed to fetch job status` and a thrown error its message, and both lower the flag; the job id is never changed |
| JobPolling.Polled | frontend/src/hooks/useJobPolling.ts:66-69 | without a job id no check runs |
| JobPolling.Poller.constructor | frontend/src/hooks/useJobPolling.ts:22-25 | the state is `Initial` |
| JobPolling.Poller.StopPolling | frontend/src/hooks/useJobPolling.ts:27-30 | the state becomes `Stopped` of the old state |
| JobPolling.Poller.StartPolling | frontend/src/hooks/useJobPolling.ts:32-37 | the state becomes `Started` of the old state |
| JobPolling.Poller.Arm | frontend/src/hooks/useJobPolling.ts:39-42 | the state becomes `Armed` of the old state |
| JobPolling.Poller.CheckStatus | frontend/src/hooks/useJobPolling.ts:44-63 | the resolution of a fetch, whenever it comes: the state becomes `Checked` of the old state |
| JobPolling.Poller.Tick | frontend/src/hooks/useJobPolling.ts:66-69 | the state becomes `Polled` of the old state |
| JobPolling.StartArmsPolling | frontend/src/hooks/useJobPolling.ts:32-42 | starting a poll and running its effect polls the new job with nothing observed |
| JobPolling.StatusDecidesFlag | frontend/src/hooks/useJobPolling.ts:56-58 | `PENDING` and `PROCESSING` keep the flag raised; `COMPLETED`, `FAILED` and `CANCELLED` lower it |
| JobPolling.EndedStaysEnded | frontend/src/hooks/useJobPolling.ts:56-62 | once lowered, the flag is never raised again by later checks |
| JobPolling.EndingCheckStopsPolling | frontend/src/hooks/useJobPolling.ts:56-62 | a terminal record or a failed fetch ends polling for good |
| JobPolling.StoppedPollsNothing | frontend/src/hooks/useJobPolling.ts:27-30 | after `stopPolling`, no firing starts a new check |
| JobPolling.StatusKeepsUpdatingAfterEnd | frontend/src/hooks/useJobPolling.ts:52-58 | the interval keeps fetching after a terminal record: a later record is still stored, with the flag down |
| JobPolling.LateCheckEndsNewPoll | frontend/src/hooks/useJobPolling.ts:44-63 | a previous job's terminal record whose fetch resolves after `startPolling(id)` lowers the flag and is shown while the job id stays `id` |
| JobRestore.TabCollection | frontend/src/hooks/useJobRestore.ts:47-56 | `style`, `sources` and `scenario` name the styles, the sources and the scenarios; any other value names nothing |
| JobRestore.PickFor | frontend/src/hooks/useJobRestore.ts:42-67 | a job without `itemId`, or with an unknown tab, is skipped; otherwise the restore is abandoned exactly when its collection fetch throws, a not-ok reply skips the job, and on an ok reply the job is taken, with `{itemId, targetTab, entry}`, exactly when the first entry carrying its `itemId` is loading, and skipped when there is no such entry or it is not loading |
| JobRestore.Taken | frontend/src/hooks/useJobRestore.ts:40-67 | the taken jobs come from the list, and each was picked |
| JobRestore.Restorer.constructor | frontend/src/hooks/useJobRestore.ts:16-20 | the hook starts restoring with an empty result |
| JobRestore.Restorer.RestoreJobs | frontend/src/hooks/useJobRestore.ts:23-76 | the flag ends false on every path; the result is replaced by `Collect` only when the fetch is ok, the list is non-empty and no exception interrupts the loop |
| JobRestore.AbortStays | frontend/src/hooks/useJobRestore.ts:71-72 | an exception abandons the whole loop |
| JobRestore.EmptyRestoresNothing | frontend/src/hooks/useJobRestore.ts:31-34 | an empty job list restores nothing |
| JobRestore.CollectCounts | frontend/src/hooks/useJobRestore.ts:64-67 | each taken job adds exactly one loading entry, in list order, and one `activeJobs` entry under its id; skipped jobs add nothing |
| JobRestore.ActiveJobsAreLoadingEntries | frontend/src/hooks/useJobRestore.ts:62-66 | every active job was taken, with its own `{itemId, targetTab, loadingItem}` |
| JobRestore.UnattachableJobsSkipped | frontend/src/hooks/useJobRestore.ts:44-55 | a job without `itemId`, or with an unknown tab, is skipped |
| JobRestore.RestoresProcessingJob | frontend/src/hooks/useJobRestore.ts:40-70 | a `PROCESSING` job naming entry `abc123` on the sources tab, whose entry is present and loading, is reattached: exactly one loading entry and exactly that job in `activeJobs` |
| Prompts.ChatSystemEmbedsSources | frontend/src/lib/prompts.ts:15-21 | the system prompt is the preamble followed by exactly the sources joined by `\n\n---\n\n` |
| Prompts.GenerateDraftOrder | frontend/src/lib/prompts.ts:51-71 | the draft prompt holds the joined styles, then the joined sources, then the chat history |
| Prompts.RefineScenarioOrder | frontend/src/lib/prompts.ts:86-116 | the refine prompt holds the draft between `**【草案】**\n` and `\n---`, then the styles, the sources and the chat history, in that order |
| Prompts.RefineScenarioEmbedsDraft | frontend/src/lib/prompts.ts:89-91 | the draft occurs verbatim in the refine prompt |
| Prompts.RefineScenarioEmbedsHistory | frontend/src/lib/prompts.ts:108-109 | the chat history occurs verbatim in the refine prompt |
| Prompts.GenerateIsDraft | frontend/src/lib/prompts.ts:122-124 | `generate` equals `generateDraft` for all inputs |
| Entities.FormatSelectedAppend | frontend/src/app/api/chat/route.ts:14-16 | formatting a concatenation concatenates the formatted parts, so input order is kept |
| Entities.FormatSelectedSingle | frontend/src/app/api/chat/route.ts:14-16 | one entry is formatted as `# name\ncontent` iff it is selected |
| Entities.FormatSelectedMembers | frontend/src/app/api/chat/route.ts:14-16 | a formatted string is in the context iff it is the heading of a selected entry |
| ChatRoute.EscapeChar | frontend/src/app/api/chat/route.ts:24 | an escaped character never holds a raw line break; a plain printable character is kept |
| ChatRoute.Escaped | frontend/src/app/api/chat/route.ts:24 | an escaped string never holds a raw line break |
| ChatRoute.JsonString | frontend/src/app/api/chat/route.ts:24 | a JSON string literal is quoted and holds no raw line break |
| ChatRoute.ContentJson | frontend/src/app/api/chat/route.ts:24 | `{"content":...}` starts with `{` and holds no raw line break |
| ChatRoute.Frame | frontend/src/app/api/chat/route.ts:24 | a chunk's frame is `data: {"content":chunk}\n\n` and is never the `[DONE]` frame |
| ChatRoute.Frames | frontend/src/app/api/chat/route.ts:23-25 | one frame per chunk, in order |
| ChatRoute.StreamController.constructor | frontend/src/app/api/chat/route.ts:20-21 | a new stream is empty and open |
| ChatRoute.StreamController.Enqueue | frontend/src/app/api/chat/route.ts:24-26 | a frame is appended |
| ChatRoute.StreamController.Close | frontend/src/app/api/chat/route.ts:27 | the stream is closed |
| ChatRoute.StreamController.Error | frontend/src/app/api/chat/route.ts:30 | the stream is errored |
| ChatRoute.Start | frontend/src/app/api/chat/route.ts:21-32 | the stream carries a frame per chunk, then `[DONE]` and close iff the upstream finished; otherwise it errors |
| ChatRoute.Post | frontend/src/app/api/chat/route.ts:10-49 | an unreadable body gives 500 `Failed to send message`; otherwise the selected entries become the context, and the response streams what `Start` emits |
| ChatRoute.EmittedFrames | frontend/src/app/api/chat/route.ts:23-31 | one frame per chunk, none of them `[DONE]`; after a finished upstream exactly one `[DONE]`, as the last frame; after a failed one, none |
| Page.IdRun | frontend/src/app/page.tsx:70 | the id run is the longest prefix free of `&`, `\n`, `?` and `#` |
| Page.PrefixesExclusive | frontend/src/app/page.tsx:70 | at most one link form starts a string |
| Page.PrefixAt | frontend/src/app/page.tsx:70 | a link form starting the string is found iff there is one |
| Page.LinkAt | frontend/src/app/page.tsx:70 | a match at a position is a link form followed by a non-empty, maximal run of non-stop characters; no match means no id follows any form there |
| Page.LinkId | frontend/src/app/page.tsx:75-77 | a found id is non-empty |
| Page.Group | frontend/src/app/page.tsx:69-78 | a pattern's group is truthy when present |
| Page.ExtractYouTubeId | frontend/src/app/page.tsx:68-81 | the loop over the patterns returns `YouTubeId(url)` |
| Page.LinkIdLeftmost | frontend/src/app/page.tsx:70 | the unanchored search returns the match at the leftmost matching position, and nothing iff no position matches |
| Page.LinkAtOccurs | frontend/src/app/page.tsx:70 | a match's id occurs in the string |
| Page.LinkIdOccurs | frontend/src/app/page.tsx:75-77 | a found id occurs in the URL |
| Page.IdOccursInUrl | frontend/src/app/page.tsx:68-81 | a returned id is non-empty and occurs in the input |
| Page.LinkAtHasDot | frontend/src/app/page.tsx:70 | a link match needs a `.` in the string |
| Page.NoLinkWithoutDot | frontend/src/app/page.tsx:70 | a URL without `.` has no link match |
| Page.BareIdReturned | frontend/src/app/page.tsx:71 | exactly eleven id characters are returned as they are |
| Page.ShortLinkId | frontend/src/app/page.tsx:70 | `youtu.be/dQw4w9WgXcQ?t=42` yields `dQw4w9WgXcQ` |
| Page.ContentUpdateTouchesOnlyContent | frontend/src/app/page.tsx:99-104 | only the `content` of the sources with that id changes; every other source, field and part of the page stays; the editor follows when it shows that entry |
| Page.ContentUpdateIdempotent | frontend/src/app/page.tsx:99-104 | writing the same content twice is writing it once |
| Page.RelabelNamesTarget | frontend/src/app/page.tsx:341-346 | the new type names the target iff the old one named the target, the other list or `Markdown`; a type naming none is kept |
| Page.RelabelMarkdown | frontend/src/app/page.tsx:341-346 | `Markdown` moved to the sources becomes `Source` |
| Page.MoveUnknownIsNoOp | frontend/src/app/page.tsx:329-330 | an id in neither list is a no-op |
| Page.MoveSourceToStyle | frontend/src/app/page.tsx:333-354 | from the sources to the styles: every entry with that id leaves the sources, the rest keep their order, the first one, relabelled, is appended to the styles and opened in the editor; nothing else changes |
| Page.MoveStyleToSource | frontend/src/app/page.tsx:336-354 | from the styles to the sources: the styles keep only the entries with that id, and the relabelled entry is appended to the sources and opened |
| Page.MoveWithinSourcesDuplicates | frontend/src/app/page.tsx:329-351 | moving a source to the sources appends a relabelled copy and keeps the original |
| Page.LineText | frontend/src/app/page.tsx:394-408 | only `data: ` lines add text; `[DONE]` and unparseable or falsy content add nothing; otherwise the parsed `content` |
| Page.DecodeLinesSnoc | frontend/src/app/page.tsx:394-410 | the lines of a read add their texts in order |
| Page.Received | frontend/src/app/page.tsx:380 | a failed chat response is exactly a not-ok reply |
| Page.Excerpts | frontend/src/app/page.tsx:376 | the request's entries are the styles and sources, one for one |
| Page.Sent | frontend/src/app/page.tsx:358-422 | a whitespace-only input changes nothing; otherwise the input is cleared, loading ends, the lists and the editor stay, and the chat is the old chat plus the user message, followed by the assistant message holding the decoded reads when the stream was read through, and without it when the request failed, was not ok or the stream broke |
| Page.Placeholder | frontend/src/app/page.tsx:132-141 | the placeholder is loading, selected, carries the new id and the URL |
| Page.VideoBegun | frontend/src/app/page.tsx:144-149 | the placeholder is appended to the list of the active tab only, and opened in the editor |
| Page.Finished | frontend/src/app/page.tsx:162-181 | the finished entry is the placeholder, no longer loading, with the response's content, the fallback template when that is falsy, or the error template |
| Page.FinishReplacesById | frontend/src/app/page.tsx:168-187 | whatever happened in between, exactly the entries with the placeholder's id are replaced, in the submission tab's list only |
| Page.VideoRoundTrip | frontend/src/app/page.tsx:127-190 | submitting and finishing with nothing in between leaves one new, finished entry at the end of the tab's list |
| Page.Page.constructor | frontend/src/app/page.tsx:21-31 | the page starts with empty lists, no chat, the sources tab, not loading |
| Page.Page.UpdateSourceContent | frontend/src/app/page.tsx:99-104 | the state becomes `ContentUpdated` of the old state |
| Page.Page.MoveSource | frontend/src/app/page.tsx:327-356 | the state becomes `Moved` of the old state |
| Page.Page.SendMessage | frontend/src/app/page.tsx:358-422 | the state becomes `Sent` of the old state; a request is made iff the input is not blank, with the chat plus the user message and the styles followed by the sources |
| Page.Page.ReadStream | frontend/src/app/page.tsx:386-413 | after the reads, the assistant message holds the decoding of all pieces |
| Page.Page.ReadPiece | frontend/src/app/page.tsx:391-410 | one read extends the assistant message by its decoded text |
| Page.Page.BeginVideo | frontend/src/app/page.tsx:127-149 | the state becomes `VideoBegun` of the old state, and the placeholder and tab are returned |
| Page.Page.FinishVideo | frontend/src/app/page.tsx:151-190 | the state becomes `VideoFinished` of the old state |
| Page.FrameLineText | frontend/src/app/page.tsx:395-401 | the line of a frame decodes to its chunk |
| Page.SplitFrame | frontend/src/app/page.tsx:392 | a frame splits into its line, an empty line and the rest |
| Page.DoneDecodesNothing | frontend/src/app/page.tsx:397 | the `[DONE]` frame and an empty read add nothing |
| Page.FrameDecodes | frontend/src/app/page.tsx:391-410 | one frame, read on its own, decodes to its chunk |
| Page.FramesDecode | frontend/src/app/page.tsx:391-410 | the frames of the chunks, read in one piece, decode to the chunks' concatenation followed by whatever comes after |
| Page.SingleReadRoundTrip | frontend/src/app/page.tsx:391-410 | everything the endpoint streams, read at once, decodes to the concatenated chunks |
| Page.FramePerReadRoundTrip | frontend/src/app/page.tsx:386-410 | a frame per read decodes to the concatenated chunks |
| Page.EmittedRoundTrip | frontend/src/app/page.tsx:386-410 | with or without `[DONE]`, frame by frame, the reads decode to the concatenated chunks |
| Page.ChatRoundTrip | frontend/src/app/page.tsx:358-422 | end to end, the chat becomes the old chat, the user message and, unless the upstream failed, an assistant message holding all the chunks |
| Crud.Outcome | frontend/src/hooks/useCrud.ts:6-50 | a request yields its parsed body iff the response was ok and parsed; a non-ok response throws `Failed to <verb> <endpoint>`; an exception is passed on |
| Crud.DeleteUrl | frontend/src/hooks/useCrud.ts:42 | the delete URL starts with `/api` and the endpoint |
| Crud.DeleteUrlQuery | frontend/src/hooks/useCrud.ts:42 | the URL carries `?id=` iff the id is truthy, and the id can be read back after it |
| Crud.EmptyIdDeletesAll | frontend/src/hooks/useCrud.ts:42 | deleting the empty id requests the same URL as deleting everything |
| Crud.AfterCreate | frontend/src/hooks/useCrud.ts:59-63 | on success the server's item is appended and earlier items are unchanged; on failure the list is unchanged |
| Crud.AfterUpdate | frontend/src/hooks/useCrud.ts:65-69 | the length is kept; on success the items with that id become the server's item and all others stay in place; on failure nothing changes |
| Crud.AfterDelete | frontend/src/hooks/useCrud.ts:71-74 | on success no item with that id is left and every other item is kept; on failure nothing changes |
| Crud.DeleteKeepsOrder | frontend/src/hooks/useCrud.ts:73 | deleting from a concatenation deletes from each part, so the order of the rest is kept |
| Crud.DeleteAbsentIsNoOp | frontend/src/hooks/useCrud.ts:73 | deleting an id no item carries changes nothing |
| Crud.CreateThenDelete | frontend/src/hooks/useCrud.ts:59-74 | creating an item with a fresh id and then deleting that id gives back the list |
| Crud.UpdateIdempotent | frontend/src/hooks/useCrud.ts:65-69 | updating twice with the same record is one update |
| Crud.Crud.constructor | frontend/src/hooks/useCrud.ts:56-57 | the list starts empty |
| Crud.Crud.Create | frontend/src/hooks/useCrud.ts:59-63 | the list becomes `AfterCreate` of the old list and the request's outcome |
| Crud.Crud.Update | frontend/src/hooks/useCrud.ts:65-69 | the list becomes `AfterUpdate` of the old list and the request's outcome |
| Crud.Crud.DeleteItem | frontend/src/hooks/useCrud.ts:71-74 | the request goes to the URL with that id, and the list becomes `AfterDelete` of the old list and its outcome |
| Crud.Crud.DeleteAll | frontend/src/hooks/useCrud.ts:76-79 | the request goes to the URL without an id; on success the list is empty, on failure unchanged |
| Crud.Crud.SetAll | frontend/src/hooks/useCrud.ts:81-83 | the list is replaced wholesale |
| Crud.LoadInitialData | frontend/src/hooks/useCrud.ts:99-107 | the result exists iff every fetch succeeds; it has exactly the keys of `endpoints`, each mapped to its fetched data |
| SupabaseData.WithList | frontend/src/hooks/useSupabaseData.ts:104-161 | one collection's list is replaced; the other two, the messages and the flags stay |
| SupabaseData.InitialData | frontend/src/hooks/useSupabaseData.ts:70-75 | all lists start empty, not mounted, loading |
| SupabaseData.Loaded | frontend/src/hooks/useSupabaseData.ts:79-97 | all four lists are replaced iff every fetch succeeds, none otherwise; on both paths loading ends and the hook is mounted |
| SupabaseData.LoadIdempotent | frontend/src/hooks/useSupabaseData.ts:79-97 | a second load with the same replies changes nothing more |
| SupabaseData.Data.constructor | frontend/src/hooks/useSupabaseData.ts:70-75 | the state is `InitialData` |
| SupabaseData.Data.SetList | frontend/src/hooks/useSupabaseData.ts:70-72 | the state becomes `WithList` of the old state |
| SupabaseData.Data.LoadData | frontend/src/hooks/useSupabaseData.ts:79-97 | the state becomes `Loaded` of the old state |
| SupabaseData.Data.Create | frontend/src/hooks/useSupabaseData.ts:104-161 | only the named collection changes, to `AfterCreate` of its old list and the request's outcome |
| SupabaseData.Data.Update | frontend/src/hooks/useSupabaseData.ts:104-161 | only the named collection changes, to `AfterUpdate` of its old list, keeping its length |
| SupabaseData.Data.Delete | frontend/src/hooks/useSupabaseData.ts:104-161 | the request goes to the collection's URL with that id; only the named collection changes, to `AfterDelete` of its old list |
| SupabaseData.Data.AddChatMessage | frontend/src/hooks/useSupabaseData.ts:164-168 | the server's message is appended on success; nothing else changes |
| SupabaseData.Data.ClearChatMessages | frontend/src/hooks/useSupabaseData.ts:171-174 | one request without an id; on success the messages are empty, on failure nothing changes |
| SupabaseData.ClearRequestsWholeHistory | frontend/src/hooks/useSupabaseData.ts:171-174 | the clearing request is `/api/chat-messages`, with no id |

## Left out

- Timers and scheduling. `setTimeout`, `setInterval`, `clearTimeout` and the rerun of
  `processJobAsync` after the backoff are events and parameters, not time. Concurrent runs of
  the same job, and a timer racing a later rerun, are not modelled. Only the interleavings a
  single run has with its own timer are.
- The Supabase, OpenRouter and `fetch` calls are foreign. The provider and the HTTP replies
  are parameters, and so are the database faults of the jobs route (`Store.Insert`,
  `Store.Query`).
- JobStore.Store.Read and JobStore.Store.Update: the processor's reads and writes cannot fail
  in the model. The code ignores the errors these calls return. A lost write would leave the
  row as it was, so a lost `COMPLETED` write would strand the job in `PROCESSING`. A failed
  read in `executeAIProcessing` would fail an existing job with `Job not found`, and one in
  `handleJobError` would return without a write. None of these paths is modelled, and
  `RerunsRepeatExecution` relies on reads that succeed.
- JobProcessor.StatusPatch: one timestamp stands for the separate `new Date()` calls of one
  update, so `startedAt` or `completedAt` equals `updatedAt` in the model. The code can write
  instants a millisecond apart. The same holds for the two calls in `handleJobError`'s
  failing branch (`ErrorStep`).
- JobPolling.Polled: a firing whose fetch resolves before anything else happens. A fetch that
  resolves after `stopPolling` or `startPolling` is `Poller.CheckStatus` on its own, and
  `LateCheckEndsNewPoll` shows what it does to a new poll. The model does not tie such a
  resolution to the job id it was started for.
- JobRestore: the reply of each collection fetch is a function of the job it is made for and
  of the collection. Two fetches for one job record would meet the same reply, but the
  listing holds each job once.
- `JSON.parse` of request bodies and stream payloads is abstracted. An unreadable chat or job
  body is `None`. `contentOf` gives the `content` of a parsed payload. Non-string truthy
  `content` values are not distinguished from strings.
- The type guards of `lib/types.ts` are not part of this model. Each job type's guard is
  modelled as the shape of its payload.
- Text decoding. `TextDecoder` splitting a multi-byte character across reads, and frames split
  across reads, are not modelled. The round-trip lemmas cover a single read and one read per frame.
- Page: `handleFileSelect` and `handleNewFile` (`FileReader`, base64) are not modelled, nor the
  `localStorage` load and save or `mounted`. Scenarios and the view components are also out.
- Page: the relabelling of `YouTube Source` to a style has no concrete example lemma.
  `RelabelNamesTarget` states the rule for all types.
- Page.Placeholder: the `name` (`<timestamp>.md`), `type` and `createdAt` fields follow the
  code. The contract states only the loading flag, the id, the URL and the selection.
- ChatRoute.EscapeChar: `JSON.stringify` escapes lone surrogates as `\uXXXX`. The model
  passes every character at or above U+0020 through, apart from `"` and `\`.
- JobsRoute: the `console.error` logging and the `.catch(console.error)` on the background
  run are left out. The response never depends on the run.
- Crud.LoadInitialData: which rejection `Promise.all` reports depends on timing. Only whether
  the load fails is modelled, not its error.
- Crud.Crud.Update: the request body `{ id, ...data }` is not modelled. The server's reply,
  whatever the body was, is what replaces the items.
- SupabaseData: the three per-collection copies of create, update and delete are one method
  each here, taking the collection as a parameter. Its request helpers are the same as those
  of `useCrud` and are not modelled twice. Entries use the shared `Item` record; the hook's
  own `Source` type calls the label `title`, and the hook only ever reads `id`.
- Job records keep `createdAt`, `updatedAt`, `startedAt` and `completedAt` as opaque instants
  (`nat`), not ISO strings.
