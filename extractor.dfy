/** Summary extraction (src/services/extractor.ts). In mock mode the headline is
    cut from the text itself; otherwise the pipeline's summary is used. */
module Extractor {
  import opened Wrappers
  import opened Domain
  import opened Api
  import opened Strings

  const MaxHeadline := 80

  const MockBullets: seq<string> := ["Captured a few key moments from the day.", "Noted energy and mood shifts."]

  /** `s.split(".")[0]`: the text before the first ".", or all of `s` when it has none. */
  function BeforeFirstDot(s: string): (r: string)
    ensures |r| <= |s| && r == s[..|r|]
    ensures '.' !in r
    ensures |r| < |s| ==> s[|r|] == '.'
    decreases |s|
  {
    if s == [] || s[0] == '.' then [] else [s[0]] + BeforeFirstDot(s[1..])
  }

  /** `s.slice(0, n)`. */
  function Slice(s: string, n: nat): (r: string)
    ensures |r| <= n && |r| <= |s| && r == s[..|r|]
    ensures |r| == n || r == s
  {
    if |s| <= n then s else s[..n]
  }

  /** The mock headline: the trimmed text up to its first ".", at most 80
      characters, or "Today" when that leaves nothing. */
  function MockHeadline(finalText: string): (h: string)
    ensures 0 < |h| <= MaxHeadline
    ensures '.' !in h
    ensures var t := Trim(finalText);
      (t == [] || t[0] == '.') ==> h == "Today"
    ensures var t := Trim(finalText);
      (t != [] && t[0] != '.') ==>
        |h| <= |t| && h == t[..|h|] && (|h| == MaxHeadline || |h| == |t| || t[|h|] == '.')
  {
    var trimmed := Trim(finalText);
    var headline := if trimmed != [] then Slice(BeforeFirstDot(trimmed), MaxHeadline) else "Today";
    if headline != [] then headline else "Today"
  }

  /** The request sent to the pipeline to complete a session. */
  function CompleteSessionRequest(finalText: string): (req: PipelineRequest)
    ensures req.mode == CompleteSession && req.finalText == Some(finalText)
  {
    PipelineRequest(CompleteSession, None, Some(finalText), None, None)
  }

  /** The summary used when the pipeline answers without one. */
  const DefaultSummary := DailySummary("Summary", [], None)

  /** `extractSummary`. A pipeline error is rethrown. */
  function ExtractSummary(finalText: string, mockMode: bool, gateway: Gateway): (r: Result<DailySummary, string>)
    ensures mockMode ==> r.Success? && r.value.headline == MockHeadline(finalText) && r.value.bullets == MockBullets
    ensures !mockMode ==>
      match gateway(CompleteSessionRequest(finalText))
      case Failure(e) => r == Failure(e)
      case Success(response) =>
        r.Success? && (response.extracted == None ==> r.value == DefaultSummary)
        && (response.extracted != None ==> r.value == response.extracted.value.dailySummary)
  {
    if mockMode then
      Success(DailySummary(MockHeadline(finalText), MockBullets, None))
    else
      match gateway(CompleteSessionRequest(finalText))
      case Failure(e) => Failure(e)
      case Success(response) =>
        match response.extracted
        case Some(extracted) => Success(extracted.dailySummary)
        case None => Success(DefaultSummary)
  }

  /** The mock headline of a blank draft is "Today". */
  lemma BlankDraftHeadline(finalText: string)
    requires AllSpace(finalText)
    ensures MockHeadline(finalText) == "Today"
  {
    TrimEmptyIff(finalText);
  }
}
