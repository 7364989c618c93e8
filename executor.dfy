/**
 * `executeAIProcessing` and the per-type processors it dispatches to. The language-model
 * provider is an arbitrary function from requests to replies, so every property below
 * holds whatever the provider answers.
 */
module Executor {
  import opened Wrappers
  import opened Text
  import opened Entities
  import opened JobModel
  import opened JobErrors
  import Prompts

  /** The default model; the three model settings fall back to it when their variable is unset. */
  const DefaultModel := "google/gemini-2.5-flash"
  const ChatModel := DefaultModel
  const VideoModel := DefaultModel
  const ScenarioModel := DefaultModel

  /** One element of a multi-part user message. */
  datatype Part = TextPart(text: string) | VideoPart(url: string) | FilePart(filename: string, fileData: string)

  /** The single user message of a request: plain text, or a list of parts. */
  datatype Message = UserText(text: string) | UserParts(parts: seq<Part>)

  /** A non-streaming chat request; `fileParser` is the PDF text-extraction plugin. */
  datatype Request = Request(model: string, message: Message, fileParser: bool)

  /** What the provider does with a request: answer (its first choice's content, if any) or throw. */
  datatype Reply = Answer(content: Option<string>) | Raise(error: Thrown)

  type Provider = Request -> Reply

  /** `(choices[0]?.message?.content as string) || ''`. */
  function ReplyText(content: Option<string>): (s: string)
    ensures Truthy(content) ==> s == content.value
    ensures !Truthy(content) ==> s == ""
  {
    if Truthy(content) then content.value else ""
  }

  /** The provider calls made, in order, and what the processor returned or threw. */
  datatype Execution = Execution(calls: seq<Request>, outcome: Result<Output, Thrown>)

  const JobNotFound := "Job not found"
  const InvalidVideoInput := "Invalid input for ANALYZE_VIDEO"
  const InvalidFileTypeInput := "Invalid input for ANALYZE_FILE"
  const InvalidScenarioInput := "Invalid input for GENERATE_SCENARIO"
  const UnknownJobType := "Unknown job type"
  const InvalidFileInput := "Invalid file input"

  /** The messages the executor throws on its own, before or instead of calling the provider. */
  predicate IsValidationMessage(m: string) {
    m == JobNotFound || m == InvalidVideoInput || m == InvalidFileTypeInput
    || m == InvalidScenarioInput || m == UnknownJobType || m == InvalidFileInput
  }

  // Video analysis.

  const VideoStylePrompt := "このYouTuber動画のスタイルを分析してください。編集テクニック、話し方、雰囲気、構成を日本語でMarkdown形式で抽出してください。"
  const VideoSourcePrompt := "この動画の内容を要約してください。主要なトピック、キーポイントを日本語でMarkdown形式で抽出してください。"

  function VideoPrompt(mode: string): string {
    if mode == "style" then VideoStylePrompt else VideoSourcePrompt
  }

  /** The processor's video prompts are the shared analysis prompts. */
  lemma VideoPromptsAreAnalyzePrompts(mode: string)
    ensures VideoStylePrompt == Prompts.AnalyzeStyle && VideoSourcePrompt == Prompts.AnalyzeSource
    ensures VideoPrompt(mode) == if mode == "style" then Prompts.AnalyzeStyle else Prompts.AnalyzeSource
  {
  }

  function VideoRequest(url: string, mode: string): Request {
    Request(VideoModel, UserParts([TextPart(VideoPrompt(mode)), VideoPart(url)]), false)
  }

  // File analysis.

  const PdfMime := "application/pdf"
  const DefaultPdfName := "document.pdf"
  const PdfStylePrompt := "このPDFドキュメントのスタイルを分析してください。構成、トーン、フォーマット、重要なポイントを日本語でMarkdown形式で抽出してください。"
  const PdfSourcePrompt := "このPDFドキュメントの内容を要約してください。主要なトピック、キーポイントを日本語でMarkdown形式で抽出してください。"
  const TextStylePrompt := "以下のドキュメントのスタイルを分析してください。構成、トーン、フォーマット、重要なポイントを日本語でMarkdown形式で抽出してください。\n\n"
  const TextSourcePrompt := "以下のドキュメントの内容を要約してください。主要なトピック、キーポイントを日本語でMarkdown形式で抽出してください。\n\n"

  predicate TakesPdfBranch(fileData: Option<string>, fileType: Option<string>) {
    Truthy(fileData) && fileType == Some(PdfMime)
  }

  /**
   * The one request `processAnalyzeFile` makes: the PDF as a file part with the parser plugin,
   * else the text content placed after the prompt, else none (the input is rejected).
   */
  function FileRequest(mode: string, content: Option<string>, fileData: Option<string>,
                       fileType: Option<string>, filename: Option<string>): (r: Option<Request>)
    ensures TakesPdfBranch(fileData, fileType) ==>
              r.Some? && r.value.fileParser && r.value.model == ChatModel
              && r.value.message.UserParts? && |r.value.message.parts| == 2
              && r.value.message.parts[1] == FilePart(if Truthy(filename) then filename.value else DefaultPdfName, fileData.value)
    ensures !TakesPdfBranch(fileData, fileType) && Truthy(content) ==>
              r.Some? && !r.value.fileParser && r.value.model == ChatModel
              && r.value.message.UserText?
              && r.value.message.text == (if mode == "style" then TextStylePrompt else TextSourcePrompt) + content.value
    ensures r.None? <==> !TakesPdfBranch(fileData, fileType) && !Truthy(content)
  {
    if TakesPdfBranch(fileData, fileType) then
      var prompt := if mode == "style" then PdfStylePrompt else PdfSourcePrompt;
      var name := if Truthy(filename) then filename.value else DefaultPdfName;
      Some(Request(ChatModel, UserParts([TextPart(prompt), FilePart(name, fileData.value)]), true))
    else if Truthy(content) then
      var prompt := if mode == "style" then TextStylePrompt else TextSourcePrompt;
      Some(Request(ChatModel, UserText(prompt + content.value), false))
    else
      None
  }

  // Scenario generation.

  /** `` chatHistory.map(m => `${m.role}: ${m.content}`) ``. */
  function ChatLineTexts(history: seq<ChatLine>): (r: seq<string>)
    ensures |r| == |history|
    ensures forall i :: 0 <= i < |history| ==> r[i] == history[i].role + ": " + history[i].content
    decreases |history|
  {
    if |history| == 0 then []
    else [history[0].role + ": " + history[0].content] + ChatLineTexts(history[1..])
  }

  function ChatText(history: seq<ChatLine>): string {
    Join(ChatLineTexts(history), "\n\n")
  }

  function DraftRequest(styles: seq<Excerpt>, sources: seq<Excerpt>, history: seq<ChatLine>): Request {
    Request(ScenarioModel,
            UserText(Prompts.GenerateDraft(FormatSelected(styles), FormatSelected(sources), ChatText(history))),
            false)
  }

  function RefineRequest(styles: seq<Excerpt>, sources: seq<Excerpt>, history: seq<ChatLine>, draft: string): Request {
    Request(ScenarioModel,
            UserText(Prompts.RefineScenario(FormatSelected(styles), FormatSelected(sources), ChatText(history), draft)),
            false)
  }

  /** `processGenerateScenario`: the draft call, then the refine call over the draft's text. */
  function ScenarioRun(styles: seq<Excerpt>, sources: seq<Excerpt>, history: seq<ChatLine>, provider: Provider): Execution {
    var draftReq := DraftRequest(styles, sources, history);
    match provider(draftReq)
    case Raise(e) => Execution([draftReq], Failure(e))
    case Answer(c) =>
      var refineReq := RefineRequest(styles, sources, history, ReplyText(c));
      match provider(refineReq)
      case Raise(e) => Execution([draftReq, refineReq], Failure(e))
      case Answer(c2) => Execution([draftReq, refineReq], Success(ScenarioOutput(ReplyText(c2))))
  }

  /** A single-request processor: the reply's text as `{content}`, or the provider's error. */
  function SingleCall(req: Request, provider: Provider): Execution {
    match provider(req)
    case Raise(e) => Execution([req], Failure(e))
    case Answer(c) => Execution([req], Success(ContentOutput(ReplyText(c))))
  }

  /** A failure thrown by the executor itself. */
  function Rejected(m: string): Execution {
    Execution([], Failure(Raised(m)))
  }

  /** `executeAIProcessing`, given the job as read (`None` when the read finds nothing). */
  function Execute(job: Option<Job>, provider: Provider): (x: Execution)
    ensures |x.calls| <= 2
    // Validation and dispatch failures happen before any provider call, with one of the fixed messages.
    ensures |x.calls| == 0 ==> x.outcome.Failure? && x.outcome.error.ErrorObject?
                               && x.outcome.error.code.None? && x.outcome.error.status.None?
                               && IsValidationMessage(x.outcome.error.message)
    ensures job.None? ==> x == Rejected(JobNotFound)
    ensures job.Some? && job.value.jobType !in {AnalyzeVideoType, AnalyzeFileType, GenerateScenarioType}
            ==> x == Rejected(UnknownJobType)
    ensures job.Some? && job.value.jobType == AnalyzeVideoType && !job.value.input.payload.VideoPayload?
            ==> x == Rejected(InvalidVideoInput)
    ensures job.Some? && job.value.jobType == AnalyzeFileType && !job.value.input.payload.FilePayload?
            ==> x == Rejected(InvalidFileTypeInput)
    ensures job.Some? && job.value.jobType == GenerateScenarioType && !job.value.input.payload.ScenarioPayload?
            ==> x == Rejected(InvalidScenarioInput)
    // Every call but the last was answered, and the last call's reply decides the outcome.
    ensures forall i :: 0 <= i < |x.calls| - 1 ==> provider(x.calls[i]).Answer?
    ensures |x.calls| > 0 && x.outcome.Failure? ==> provider(x.calls[|x.calls| - 1]) == Raise(x.outcome.error)
    ensures x.outcome.Success? ==> |x.calls| > 0 && provider(x.calls[|x.calls| - 1]).Answer?
                                   && OutputText(x.outcome.value) == ReplyText(provider(x.calls[|x.calls| - 1]).content)
    // Analyses produce `{content}`, generation produces `{scenario}`.
    ensures x.outcome.Success? ==> job.Some? && (x.outcome.value.ScenarioOutput? <==> job.value.jobType == GenerateScenarioType)
  {
    if job.None? then Rejected(JobNotFound)
    else
      var j := job.value;
      var p := j.input.payload;
      if j.jobType == AnalyzeVideoType then
        if !p.VideoPayload? then Rejected(InvalidVideoInput)
        else SingleCall(VideoRequest(p.url, p.mode), provider)
      else if j.jobType == AnalyzeFileType then
        if !p.FilePayload? then Rejected(InvalidFileTypeInput)
        else match FileRequest(p.mode, p.content, p.fileData, p.fileType, p.filename)
          case None => Rejected(InvalidFileInput)
          case Some(req) => SingleCall(req, provider)
      else if j.jobType == GenerateScenarioType then
        if !p.ScenarioPayload? then Rejected(InvalidScenarioInput)
        else ScenarioRun(p.styles, p.sources, p.chatHistory, provider)
      else Rejected(UnknownJobType)
  }

  /** The text an output carries. */
  function OutputText(o: Output): string {
    match o
    case ContentOutput(c) => c
    case ScenarioOutput(s) => s
  }

  /**
   * The two-call order of scenario generation: the draft request goes first and, when it is
   * answered, the refine request embeds the draft's text verbatim, after the other material.
   */
  lemma ScenarioCallOrder(j: Job, provider: Provider)
    requires j.jobType == GenerateScenarioType && j.input.payload.ScenarioPayload?
    ensures var x := Execute(Some(j), provider);
            var p := j.input.payload;
            var draftReq := DraftRequest(p.styles, p.sources, p.chatHistory);
            && 1 <= |x.calls| <= 2
            && x.calls[0] == draftReq
            && (provider(draftReq).Raise? <==> |x.calls| == 1)
            && (|x.calls| == 2 ==>
                  var draft := ReplyText(provider(draftReq).content);
                  && x.calls[1] == RefineRequest(p.styles, p.sources, p.chatHistory, draft)
                  && x.calls[1].message.UserText?
                  && Contains(x.calls[1].message.text, draft)
                  && Contains(x.calls[1].message.text, ChatText(p.chatHistory)))
  {
    var x := Execute(Some(j), provider);
    var p := j.input.payload;
    var draftReq := DraftRequest(p.styles, p.sources, p.chatHistory);
    if |x.calls| == 2 {
      var draft := ReplyText(provider(draftReq).content);
      var ss := FormatSelected(p.styles);
      var os := FormatSelected(p.sources);
      var c := ChatText(p.chatHistory);
      Prompts.RefineScenarioEmbedsDraft(ss, os, c, draft);
      Prompts.RefineScenarioEmbedsHistory(ss, os, c, draft);
    }
  }

  /** The file branch is chosen as `processAnalyzeFile` chooses it, and a rejected file input makes no call. */
  lemma FileBranches(j: Job, provider: Provider)
    requires j.jobType == AnalyzeFileType && j.input.payload.FilePayload?
    ensures var x := Execute(Some(j), provider);
            var p := j.input.payload;
            && (TakesPdfBranch(p.fileData, p.fileType) ==> |x.calls| == 1 && x.calls[0].fileParser)
            && (!TakesPdfBranch(p.fileData, p.fileType) && Truthy(p.content) ==>
                  |x.calls| == 1 && !x.calls[0].fileParser && x.calls[0].message.UserText?)
            && (!TakesPdfBranch(p.fileData, p.fileType) && !Truthy(p.content) ==> x == Rejected(InvalidFileInput))
  {
  }

  /** None of the executor's own messages is a network failure, so its rejections are never retried. */
  lemma ValidationMessageNotRetryable(m: string)
    requires IsValidationMessage(m)
    ensures !IsRetryableError(Raised(m))
  {
    NotFoundMessageNotRetryable();
    UnknownTypeMessageNotRetryable();
    InvalidFileMessageNotRetryable();
    VideoInputMessageNotRetryable();
    FileInputMessageNotRetryable();
    ScenarioInputMessageNotRetryable();
  }

  // Each of the executor's messages, checked on its own.

  lemma NotFoundMessageNotRetryable()
    ensures !IsRetryableError(Raised(JobNotFound))
  {
    NotRetryableByChar(JobNotFound);
  }

  lemma UnknownTypeMessageNotRetryable()
    ensures !IsRetryableError(Raised(UnknownJobType))
  {
    NotRetryableByChar(UnknownJobType);
  }

  lemma InvalidFileMessageNotRetryable()
    ensures !IsRetryableError(Raised(InvalidFileInput))
  {
    NotRetryableByChar(InvalidFileInput);
  }

  lemma VideoInputMessageNotRetryable()
    ensures !IsRetryableError(Raised(InvalidVideoInput))
  {
    NotRetryableByChar(InvalidVideoInput);
  }

  lemma FileInputMessageNotRetryable()
    ensures !IsRetryableError(Raised(InvalidFileTypeInput))
  {
    NotRetryableByChar(InvalidFileTypeInput);
  }

  /** `GENERATE_SCENARIO` has a `C`, but no `E` right before it. */
  lemma ScenarioInputMessageNotRetryable()
    ensures !IsRetryableError(Raised(InvalidScenarioInput))
  {
    NotRetryableByPair(InvalidScenarioInput);
  }

  /** A message without `C` and without `M` mentions neither connection failure. */
  lemma NotRetryableByChar(m: string)
    requires 'C' !in m && 'M' !in m
    ensures !IsRetryableError(Raised(m))
  {
    AbsentCharExcludes(m, ConnectionReset, 1);
    AbsentCharExcludes(m, TimedOut, 3);
  }

  /** A message without `M` and without `E` directly before `C` mentions neither connection failure. */
  lemma NotRetryableByPair(m: string)
    requires 'M' !in m
    requires forall k :: 0 <= k < |m| - 1 && m[k] == 'E' ==> m[k + 1] != 'C'
    ensures !IsRetryableError(Raised(m))
  {
    AbsentPairExcludes(m, ConnectionReset);
    AbsentCharExcludes(m, TimedOut, 3);
  }

  /** Whatever the provider does, a run with no provider call ends in an error that is not retryable. */
  lemma RejectionNotRetryable(job: Option<Job>, provider: Provider)
    ensures var x := Execute(job, provider);
            |x.calls| == 0 ==> x.outcome.Failure? && !IsRetryableError(x.outcome.error)
  {
    var x := Execute(job, provider);
    if |x.calls| == 0 {
      ValidationMessageNotRetryable(x.outcome.error.message);
    }
  }
}
