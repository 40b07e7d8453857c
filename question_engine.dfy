/** Question selection and answer validation (src/services/questionEngine.ts).
    In mock mode both are local rules; otherwise the pipeline answers. */
module QuestionEngine {
  import opened Wrappers
  import opened Domain
  import opened Api
  import opened Strings

  const Meaning := AIQuestion("What felt most meaningful today?", "meaning", None)
  const Energy := AIQuestion("What took the most energy?", "energy", None)
  const Wins := AIQuestion("Was there a small win you want to remember?", "wins", None)

  const FallbackQuestions: seq<AIQuestion> := [Meaning, Energy, Wins]

  /** The position `find` stops at: the first question whose text has not been
      asked, or `|qs|` when every one has. */
  function FirstUnasked(qs: seq<AIQuestion>, asked: seq<string>): (k: nat)
    ensures k <= |qs|
    ensures forall j :: 0 <= j < k ==> qs[j].question in asked
    ensures k < |qs| ==> qs[k].question !in asked
    decreases |qs|
  {
    if qs == [] then 0
    else if qs[0].question !in asked then 0
    else 1 + FirstUnasked(qs[1..], asked)
  }

  /** The mock-mode question: the first fallback question not yet asked, or the
      first fallback question once all have been asked. */
  function MockNextQuestion(asked: seq<string>): (q: AIQuestion)
    ensures q in FallbackQuestions
  {
    var k := FirstUnasked(FallbackQuestions, asked);
    if k < |FallbackQuestions| then FallbackQuestions[k] else FallbackQuestions[0]
  }

  /** `askedQuestions[askedQuestions.length - 1] ?? null`. */
  function LastQuestion(asked: seq<string>): (last: Option<string>)
    ensures last == None <==> asked == []
    ensures last != None ==> last.value == asked[|asked| - 1]
  {
    if asked == [] then None else Some(asked[|asked| - 1])
  }

  /** The request sent to the pipeline for a next question. */
  function NextQuestionRequest(draftText: string, asked: seq<string>): (req: PipelineRequest)
    ensures req.mode == NextQuestion && req.draftText == Some(draftText)
    ensures req.askedQuestions == Some(asked) && req.lastQuestion == LastQuestion(asked)
  {
    PipelineRequest(NextQuestion, Some(draftText), None, Some(asked), LastQuestion(asked))
  }

  /** `getNextQuestion`. Outside mock mode the pipeline's question is used, or a
      fallback question at the random position `pick` when it gave none; a
      pipeline error is rethrown. */
  function GetNextQuestion(draftText: string, asked: seq<string>, mockMode: bool, gateway: Gateway, pick: nat): (r: Result<AIQuestion, string>)
    requires pick < |FallbackQuestions|
    ensures mockMode ==> r == Success(MockNextQuestion(asked))
    ensures !mockMode ==>
      match gateway(NextQuestionRequest(draftText, asked))
      case Failure(e) => r == Failure(e)
      case Success(response) =>
        && (response.nextQuestion != None ==> r == Success(response.nextQuestion.value))
        && (response.nextQuestion == None ==> r == Success(FallbackQuestions[pick]))
  {
    if mockMode then Success(MockNextQuestion(asked))
    else
      match gateway(NextQuestionRequest(draftText, asked))
      case Failure(e) => Failure(e)
      case Success(response) => Success(response.nextQuestion.GetOr(FallbackQuestions[pick]))
  }

  /** In mock mode the question is the first fallback one, in list order, whose
      text has not been asked; when all three have been, it is the first. */
  lemma MockPicksFirstUnasked(asked: seq<string>)
    ensures forall j :: 0 <= j < |FallbackQuestions| && FallbackQuestions[j] == MockNextQuestion(asked) ==>
      forall i :: 0 <= i < j ==> FallbackQuestions[i].question in asked
    ensures (exists j :: 0 <= j < |FallbackQuestions| && FallbackQuestions[j].question !in asked) ==>
      MockNextQuestion(asked).question !in asked
    ensures (forall j :: 0 <= j < |FallbackQuestions| ==> FallbackQuestions[j].question in asked) ==>
      MockNextQuestion(asked) == Meaning
  {
    var k := FirstUnasked(FallbackQuestions, asked);
    forall j | 0 <= j < |FallbackQuestions| && FallbackQuestions[j] == MockNextQuestion(asked)
      ensures forall i :: 0 <= i < j ==> FallbackQuestions[i].question in asked
    {
      if k < |FallbackQuestions| {
        assert j == k;
      } else {
        assert j == 0;
      }
    }
  }

  /** In mock mode neither the draft, the gateway nor the random pick matters. */
  lemma MockIgnoresDraft(d1: string, d2: string, asked: seq<string>, g1: Gateway, g2: Gateway, p1: nat, p2: nat)
    requires p1 < |FallbackQuestions| && p2 < |FallbackQuestions|
    ensures GetNextQuestion(d1, asked, true, g1, p1) == GetNextQuestion(d2, asked, true, g2, p2)
  {
  }

  /** The questions asked after `n` mock-mode rounds, each appending the question it got. */
  function AskedAfter(n: nat): (asked: seq<string>)
    ensures |asked| == n
  {
    if n == 0 then [] else AskedAfter(n - 1) + [MockNextQuestion(AskedAfter(n - 1)).question]
  }

  /** The texts of the fallback questions, in list order. */
  const FallbackTexts: seq<string> := [Meaning.question, Energy.question, Wins.question]

  /** `FirstUnasked` over the fallback list is determined by its contract. */
  lemma FirstUnaskedIs(asked: seq<string>, k: nat)
    requires k <= |FallbackQuestions|
    requires forall j :: 0 <= j < k ==> FallbackQuestions[j].question in asked
    requires k < |FallbackQuestions| ==> FallbackQuestions[k].question !in asked
    ensures FirstUnasked(FallbackQuestions, asked) == k
  {
  }

  /** Once all three fallback questions have been asked, mock mode returns the first. */
  lemma MockAllAsked(asked: seq<string>)
    requires forall t :: t in FallbackTexts ==> t in asked
    ensures MockNextQuestion(asked) == Meaning
  {
    assert FallbackTexts[0] in asked && FallbackTexts[1] in asked && FallbackTexts[2] in asked;
  }

  /** With the first `k < 3` fallback questions asked, mock mode returns the next one. */
  lemma MockAfterPrefix(k: nat)
    requires k < 3
    ensures MockNextQuestion(FallbackTexts[..k]) == FallbackQuestions[k]
  {
    var asked := FallbackTexts[..k];
    assert forall j :: 0 <= j < k ==> FallbackQuestions[j].question == asked[j];
    assert FallbackQuestions[k].question !in asked;
    FirstUnaskedIs(asked, k);
  }

  /** Starting from no questions and appending each answer, mock mode asks
      meaning, energy, wins, and then meaning forever. */
  lemma {:induction false} MockSequence(n: nat)
    ensures n <= 3 ==> AskedAfter(n) == FallbackTexts[..n]
    ensures n >= 3 ==> AskedAfter(n)[..3] == FallbackTexts
    ensures MockNextQuestion(AskedAfter(n)) == if n < 3 then FallbackQuestions[n] else Meaning
  {
    var asked := AskedAfter(n);
    if n > 0 {
      MockSequence(n - 1);
      var prev := AskedAfter(n - 1);
      assert asked == prev + [MockNextQuestion(prev).question];
      if n <= 3 {
        assert FallbackTexts[..n] == FallbackTexts[..n - 1] + [FallbackTexts[n - 1]];
      } else {
        assert asked[..3] == prev[..3];
      }
    }
    if n < 3 {
      MockAfterPrefix(n);
    } else {
      assert forall t :: t in FallbackTexts ==> t in asked[..3];
      MockAllAsked(asked);
    }
  }

  /** `validateQuestionAnswered`. In mock mode a draft counts as answering when it
      is longer than 20 characters once trimmed; otherwise the pipeline's
      validator is used, or "not answered" when it gave none. */
  function ValidateQuestionAnswered(draftText: string, lastQuestion: Option<string>, mockMode: bool, gateway: Gateway): (r: Result<Validation, string>)
    ensures mockMode ==> r.Success? && r.value.evidence == [] && (r.value.answered <==> |Trim(draftText)| > 20)
    ensures !mockMode ==>
      var request := PipelineRequest(NextQuestion, Some(draftText), None, Some([]), lastQuestion);
      match gateway(request)
      case Failure(e) => r == Failure(e)
      case Success(response) =>
        && (response.validator == None ==> r == Success(Validation(false, [])))
        && (response.validator != None ==> r == Success(response.validator.value))
  {
    if mockMode then Success(Validation(|Trim(draftText)| > 20, []))
    else
      match gateway(PipelineRequest(NextQuestion, Some(draftText), None, Some([]), lastQuestion))
      case Failure(e) => Failure(e)
      case Success(response) => Success(response.validator.GetOr(Validation(false, [])))
  }
}
