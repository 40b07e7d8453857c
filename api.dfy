/** The request and response shapes of the AI pipeline (src/types/api.ts). The
    pipeline itself is remote: a `Gateway` is whatever answer it gives, or the
    error `runPipeline` throws. The `meDb` snapshot, always empty in the screens
    that call the services, is not carried. */
module Api {
  import opened Wrappers
  import opened Domain

  datatype PipelineMode = NextQuestion | CompleteSession

  datatype PipelineRequest = PipelineRequest(
    mode: PipelineMode,
    draftText: Option<string>,
    finalText: Option<string>,
    askedQuestions: Option<seq<string>>,
    lastQuestion: Option<string>)

  datatype Validation = Validation(answered: bool, evidence: seq<string>)

  datatype Extracted = Extracted(dailySummary: DailySummary)

  datatype PipelineResponse = PipelineResponse(
    nextQuestion: Option<AIQuestion>,
    validator: Option<Validation>,
    extracted: Option<Extracted>)

  /** `runPipeline`: a response to each request, or the error it throws. */
  type Gateway = PipelineRequest -> Result<PipelineResponse, string>
}
