/** The analysis shapes of types.ts: what the external analysis service returns and what the
    history keeps. The service itself is not part of this model. */
module Analysis {

  datatype InputType = Article | Image

  datatype Verdict = Real | LikelyReal | Uncertain | LikelyFake | Fake

  datatype AnalysisSource = AnalysisSource(url: string, title: string)

  datatype AnalysisResult = AnalysisResult(
    verdict: Verdict,
    summary: string,
    confidence: real,
    reasoning: seq<string>,
    sources: seq<AnalysisSource>)

  /** `HistoryItem`: a result with its identifier, timestamp and (a snippet of) its input. */
  datatype HistoryItem = HistoryItem(id: string, timestamp: int, inputType: InputType, input: string, result: AnalysisResult)

  /** `Omit<HistoryItem, 'id' | 'timestamp'>`: what a caller hands to `saveAnalysis`. */
  datatype HistoryPayload = HistoryPayload(inputType: InputType, input: string, result: AnalysisResult)
}
