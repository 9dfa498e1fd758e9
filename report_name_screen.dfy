/** The screen that names a result before it is saved: a name check and the
    body sent to the unified reports route, built from the parameters the
    result screen passes on. */
module AddReportNameScreen {
  import opened Wrappers
  import opened Text
  import opened Js
  import Reports
  import Json

  /** The body of the save request. */
  datatype SaveBody = SaveBody(
    reportName: string, reportType: string, risk: Value, recommendation: Value,
    finalProbability: Value, userData: Value, images: Value, rawResult: Value)

  const ResultType := "AI Result"

  /** `n / 100` on a number. */
  function Hundredth(n: Num): (r: Num)
    ensures n.Finite? ==> r == Finite(n.x / 100.0)
    ensures !n.Finite? ==> r == n
  {
    match n
    case Finite(x) => Finite(x / 100.0)
    case _ => n
  }

  /** `predictionScore ? predictionScore / 100 : null`. */
  function ScoreToProbability(score: Value): (p: Value)
    ensures !Truthy(score) ==> p == Null
    ensures Truthy(score) ==> p == Number(Hundredth(ToNumber(score)))
  {
    if Truthy(score) then Number(Hundredth(ToNumber(score))) else Null
  }

  /** A score of zero is sent as no probability at all. */
  lemma ZeroScoreIsNull()
    ensures ScoreToProbability(Number(Finite(0.0))) == Null
  {
  }

  /** `handleSaveReport`: None where the name is blank and no request is
      made; otherwise the body, with the name as typed. */
  function SaveRequest(params: map<string, Value>, reportName: string): (body: Option<SaveBody>)
    ensures body.None? <==> Trim(reportName) == ""
    ensures body.Some? ==> body.value.reportName == reportName && body.value.reportType == ResultType
    ensures body.Some? ==> body.value.finalProbability == ScoreToProbability(Get(params, "predictionScore"))
    ensures body.Some? ==>
              && body.value.risk == Get(params, "risk")
              && body.value.recommendation == Get(params, "recommendation")
              && body.value.userData == Get(params, "userData")
              && body.value.images == Get(params, "images")
              && body.value.rawResult == Get(params, "result")
  {
    if Trim(reportName) == "" then None
    else
      Some(SaveBody(reportName, ResultType, Get(params, "risk"), Get(params, "recommendation"),
                    ScoreToProbability(Get(params, "predictionScore")), Get(params, "userData"),
                    Get(params, "images"), Get(params, "result")))
  }

  /** The parameters the result screen navigates with. */
  function ResultParams(risk: Value, recommendations: seq<string>, predictionScore: Num,
                        userData: Value, images: Value): (params: map<string, Value>)
    ensures params.Keys == {"risk", "recommendations", "predictionScore", "userData", "images"}
  {
    map["risk" := risk,
        "recommendations" := Array(seq(|recommendations|, i requires 0 <= i < |recommendations| => Str(recommendations[i]))),
        "predictionScore" := Number(predictionScore), "userData" := userData, "images" := images]
  }

  /** Coming from the result screen, the body never carries a
      recommendation or a raw result: the result screen sends
      `recommendations` and no `result`. */
  lemma ResultScreenLosesRecommendation(risk: Value, recommendations: seq<string>, score: Num,
                                        userData: Value, images: Value, reportName: string)
    requires Trim(reportName) != ""
    ensures var body := SaveRequest(ResultParams(risk, recommendations, score, userData, images), reportName);
            body.Some? && body.value.recommendation == Undefined && body.value.rawResult == Undefined
  {
    var params := ResultParams(risk, recommendations, score, userData, images);
    assert "recommendation" !in params;
    assert "result" !in params;
  }

  /** The object literal axios is given. */
  function Fields(b: SaveBody): map<string, Value> {
    map["risk" := b.risk, "recommendation" := b.recommendation, "userData" := b.userData,
        "images" := b.images, "rawResult" := b.rawResult, "finalProbability" := b.finalProbability,
        "reportType" := Str(b.reportType), "reportName" := Str(b.reportName)]
  }

  /** The body as the server reads it, after `JSON.stringify` on the app
      and the JSON parser on the server: the name and type as typed,
      undefined fields absent, a NaN or infinite probability as null, and
      every JSON-safe field unchanged. */
  function AsJson(b: SaveBody): (j: map<string, Value>)
    ensures j.Keys <= Fields(b).Keys
    ensures forall k :: k in j ==> Json.Safe(j[k])
    ensures Get(j, "reportName") == Str(b.reportName) && Get(j, "reportType") == Str(b.reportType)
    ensures b.finalProbability.Number? && !b.finalProbability.n.Finite? ==> Get(j, "finalProbability") == Null
    ensures forall k :: Json.Safe(Get(Fields(b), k)) ==> Get(j, k) == Get(Fields(b), k)
  {
    FieldsHoldBody(b);
    Json.Body(Fields(b))
  }

  lemma FieldsHoldBody(b: SaveBody)
    ensures Get(Fields(b), "reportName") == Str(b.reportName) && Get(Fields(b), "reportType") == Str(b.reportType)
    ensures Get(Fields(b), "finalProbability") == b.finalProbability
  {
  }

  /** An infinite score is sent as a probability the server reads as null. */
  lemma InfiniteScoreArrivesAsNull(params: map<string, Value>, reportName: string, negative: bool)
    requires Trim(reportName) != ""
    requires Get(params, "predictionScore") == Number(Inf(negative))
    ensures Get(AsJson(SaveRequest(params, reportName).value), "finalProbability") == Null
  {
  }

  /** A name the screen lets through is one the server accepts: both test
      the trimmed name. */
  lemma AcceptedNameIsAcceptedByServer(params: map<string, Value>, reportName: string)
    requires SaveRequest(params, reportName).Some?
    ensures Reports.CheckName(Get(AsJson(SaveRequest(params, reportName).value), "reportName")) ==
            Reports.Named(reportName)
  {
    TrimEmptyIffAllSpace(reportName);
  }
}
