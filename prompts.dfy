/**
 * The prompt templates: the chat system prompt, the two video-analysis instructions and the
 * two-stage scenario prompts (draft, then refinement of the draft).
 */
module Prompts {
  import opened Text

  /** Separator between context sources in the chat system prompt. */
  const ContextSeparator := "\n\n---\n\n"

  const SystemPreamble := "あなたは動画制作支援AIアシスタントです。\n以下のソース情報を元に、ユーザーの質問に答えてください。\n\nソース情報:\n"

  /** `chatPrompts.system(contextSources)`. */
  function ChatSystem(contextSources: seq<string>): string {
    SystemPreamble + Join(contextSources, ContextSeparator)
  }

  /** `analyzePrompts.style`. */
  const AnalyzeStyle := "このYouTuber動画のスタイルを分析してください。編集テクニック、話し方、雰囲気、構成を日本語でMarkdown形式で抽出してください。"

  /** `analyzePrompts.source`. */
  const AnalyzeSource := "この動画の内容を要約してください。主要なトピック、キーポイントを日本語でMarkdown形式で抽出してください。"

  /** Separator between style entries and between source entries in the scenario prompts. */
  const ExcerptSeparator := "\n\n"

  const DraftIntro := "以下の情報を元に、YouTube動画のシナリオの**草案**を作成してください。\n\nスタイル情報:\n"
  const SourcesHeader := "\n\nソース情報:\n"
  const HistoryHeader := "\n\nディスカッション履歴:\n"
  const DraftOutro := "\n\nまず基本的な構成でシナリオ草案を作成してください。後で改善のプロセスを経ますので、現時点で思いつくベースラインとしてのシナリオを作成してください。\n\n構成:\n1. 導入（フック）\n2. 本論\n3. まとめ\n\n日本語でMarkdown形式で出力してください。"

  /** `scenarioPrompts.generateDraft(styles, sources, chatHistory)`. */
  function GenerateDraft(styles: seq<string>, sources: seq<string>, chatHistory: string): string {
    DraftIntro + Join(styles, ExcerptSeparator) + SourcesHeader + Join(sources, ExcerptSeparator)
    + HistoryHeader + chatHistory + DraftOutro
  }

  const RefineIntro := "以下は、YouTube動画シナリオの**草案**です。\n\n---\n"
  const DraftOpen := "**【草案】**\n"
  const DraftClose := "\n---"
  const RefineInstructions := "\n\nこの草案を元に、より洗練された最終シナリオを作成してください。\n\n**改善のポイント:**\n1. 草案の弱点や不足している点を批判的に分析してください\n2. 視聴者の没入感を高めるためのフック（導入）の工夫を検討してください\n3. ストーリーテリングの観点から、情報の順序や構成を再評価してください\n4. 具体的な表現や例を追加して、より魅力的な内容にしてください\n\n**元の情報:**\nスタイル情報:\n"
  const RefineOutro := "\n\n構成:\n1. 導入（フック）- 視聴者の注意を強く引く工夫を入れる\n2. 本論 - 具体的な例やエピソードを交える\n3. まとめ - 行動を促す強い締めくくり\n\n日本語でMarkdown形式で出力してください。"

  /** The delimited draft block that the refinement prompt quotes. */
  function DraftBlock(draftScenario: string): string {
    DraftOpen + draftScenario + DraftClose
  }

  /** `scenarioPrompts.refineScenario(styles, sources, chatHistory, draftScenario)`. */
  function RefineScenario(styles: seq<string>, sources: seq<string>, chatHistory: string, draftScenario: string): string {
    RefineIntro + DraftBlock(draftScenario) + RefineInstructions
    + Join(styles, ExcerptSeparator) + SourcesHeader + Join(sources, ExcerptSeparator)
    + HistoryHeader + chatHistory + RefineOutro
  }

  /** `scenarioPrompts.generate`, the deprecated alias. */
  function Generate(styles: seq<string>, sources: seq<string>, chatHistory: string): string {
    GenerateDraft(styles, sources, chatHistory)
  }

  /** The system prompt is a fixed preamble followed by exactly the joined context sources. */
  lemma ChatSystemEmbedsSources(contextSources: seq<string>)
    ensures ChatSystem(contextSources) == ChatSystem([]) + Join(contextSources, ContextSeparator)
    ensures Contains(ChatSystem(contextSources), Join(contextSources, ContextSeparator))
  {
    ContainsInfix(SystemPreamble, Join(contextSources, ContextSeparator), "");
    assert SystemPreamble + Join(contextSources, ContextSeparator) + ""
        == ChatSystem(contextSources);
  }

  /** The draft prompt holds the joined styles, then the joined sources, then the chat history. */
  lemma GenerateDraftOrder(styles: seq<string>, sources: seq<string>, chatHistory: string)
    ensures ContainsInOrder(GenerateDraft(styles, sources, chatHistory),
                            [Join(styles, ExcerptSeparator), Join(sources, ExcerptSeparator), chatHistory])
  {
    InOrderOfThree(DraftIntro, Join(styles, ExcerptSeparator), SourcesHeader, Join(sources, ExcerptSeparator),
                   HistoryHeader, chatHistory, DraftOutro);
  }

  /**
   * The refinement prompt quotes the draft verbatim between its delimiters, and after it
   * repeats the original styles, sources and chat history, in that order.
   */
  lemma RefineScenarioOrder(styles: seq<string>, sources: seq<string>, chatHistory: string, draftScenario: string)
    ensures ContainsInOrder(RefineScenario(styles, sources, chatHistory, draftScenario),
                            [DraftBlock(draftScenario), Join(styles, ExcerptSeparator),
                             Join(sources, ExcerptSeparator), chatHistory])
  {
    var d := DraftBlock(draftScenario);
    InOrderOfFour(RefineIntro, d, RefineInstructions, Join(styles, ExcerptSeparator), SourcesHeader,
                  Join(sources, ExcerptSeparator), HistoryHeader, chatHistory, RefineOutro);
  }

  /** In particular the draft itself occurs verbatim in the refinement prompt. */
  lemma RefineScenarioEmbedsDraft(styles: seq<string>, sources: seq<string>, chatHistory: string, draftScenario: string)
    ensures Contains(RefineScenario(styles, sources, chatHistory, draftScenario), draftScenario)
  {
    var r := RefineScenario(styles, sources, chatHistory, draftScenario);
    var k := |RefineIntro| + |DraftOpen|;
    assert r[k..k + |draftScenario|] == draftScenario;
    ContainsAt(r, draftScenario, k);
  }

  /** The chat history, too, occurs verbatim in the refinement prompt. */
  lemma RefineScenarioEmbedsHistory(styles: seq<string>, sources: seq<string>, chatHistory: string, draftScenario: string)
    ensures Contains(RefineScenario(styles, sources, chatHistory, draftScenario), chatHistory)
  {
    ContainsInfix(RefineIntro + DraftBlock(draftScenario) + RefineInstructions
                  + Join(styles, ExcerptSeparator) + SourcesHeader + Join(sources, ExcerptSeparator)
                  + HistoryHeader, chatHistory, RefineOutro);
  }

  /** The deprecated `generate` is the draft prompt for all inputs. */
  lemma GenerateIsDraft(styles: seq<string>, sources: seq<string>, chatHistory: string)
    ensures Generate(styles, sources, chatHistory) == GenerateDraft(styles, sources, chatHistory)
  {
  }
}
