/** The decision step of the Python predictor script: per-image risk codes
    and the text model's label are combined into a three-level risk, and the
    script prints an object with three keys. The models themselves are
    parameters. */
module PythonPredict {
  import opened Js

  /** One entry of `predict_images`: a dict of predicted classes, or the
      error text that replaces the whole list when any image fails. */
  datatype ImagePrediction = ImageResult(disease: int, risk: int) | ImageError(message: string)

  /** The text model: it returns a label for a feature vector or raises. */
  datatype ModelOutcome = Label(text: string) | Raised(message: string)

  /** `FEATURE_ORDER`. */
  const FeatureOrder: seq<string> := ["age", "cholesterol", "bp", "sugar"]

  /** The feature vector in `FeatureOrder`, or the first key that is missing
      (the `KeyError` of the list comprehension). */
  datatype Features = Vector(values: seq<Value>) | MissingKey(key: string)

  function Extract(data: map<string, Value>, keys: seq<string>): (f: Features)
    ensures f.Vector? <==> forall k :: k in keys ==> k in data
    ensures f.Vector? ==> |f.values| == |keys| && forall i :: 0 <= i < |keys| ==> f.values[i] == data[keys[i]]
    ensures f.MissingKey? ==>
              exists i :: 0 <= i < |keys| && keys[i] == f.key && keys[i] !in data &&
                          forall j :: 0 <= j < i ==> keys[j] in data
  {
    if keys == [] then Vector([])
    else if keys[0] !in data then MissingKey(keys[0])
    else
      match Extract(data, keys[1..])
      case Vector(rest) => Vector([data[keys[0]]] + rest)
      case MissingKey(k) =>
        assert forall j :: 1 <= j <= |keys| - 1 ==> keys[j] == keys[1..][j - 1];
        MissingKey(k)
  }

  /** `predict_text`: the model's label, or the text of the exception. A
      missing feature prints as its quoted key, as `str(KeyError(k))` does. */
  function PredictText(data: map<string, Value>, model: seq<Value> -> ModelOutcome): (text: string)
    ensures (forall k :: k in FeatureOrder ==> k in data) && model(Extract(data, FeatureOrder).values).Label? ==>
              text == model(Extract(data, FeatureOrder).values).text
  {
    match Extract(data, FeatureOrder)
    case MissingKey(k) => "Text prediction error: '" + k + "'"
    case Vector(features) =>
      match model(features)
      case Label(t) => t
      case Raised(e) => "Text prediction error: " + e
  }

  /** The features reach the model in the order age, cholesterol, bp, sugar. */
  lemma FeaturesInTrainingOrder(data: map<string, Value>)
    requires "age" in data && "cholesterol" in data && "bp" in data && "sugar" in data
    ensures Extract(data, FeatureOrder) == Vector([data["age"], data["cholesterol"], data["bp"], data["sugar"]])
  {
    var f := Extract(data, FeatureOrder);
    assert f.Vector?;
    assert f.values[0] == data["age"] && f.values[1] == data["cholesterol"];
    assert f.values[2] == data["bp"] && f.values[3] == data["sugar"];
  }

  /** A request without an age never reaches the model: the first missing
      feature in training order is named in the error text. */
  lemma MissingAgeIsReported(data: map<string, Value>, model: seq<Value> -> ModelOutcome)
    requires "age" !in data
    ensures PredictText(data, model) == "Text prediction error: 'age'"
  {
    assert Extract(data, FeatureOrder) == MissingKey("age");
  }

  /** `isinstance(img, dict)` and `img["risk"] == c`. */
  predicate HasCode(p: ImagePrediction, c: int) {
    p.ImageResult? && p.risk == c
  }

  /** `[img["risk"] for img in image_preds if isinstance(img, dict)]`. */
  function RiskCodes(preds: seq<ImagePrediction>): (codes: seq<int>)
    ensures |codes| <= |preds|
    ensures forall c :: c in codes <==> exists i :: 0 <= i < |preds| && HasCode(preds[i], c)
  {
    if preds == [] then []
    else
      var rest := RiskCodes(preds[1..]);
      assert forall i :: 1 <= i < |preds| ==> preds[i] == preds[1..][i - 1];
      match preds[0]
      case ImageResult(_, r) => [r] + rest
      case ImageError(_) => rest
  }

  const HighLevel := "High"
  const ModerateLevel := "Moderate"
  const LowLevel := "Low"

  /** The `risk_level` decision. */
  function RiskLevel(textPred: string, preds: seq<ImagePrediction>): (level: string)
    ensures level in {HighLevel, ModerateLevel, LowLevel}
    ensures level == HighLevel <==> 2 in RiskCodes(preds) || textPred == HighLevel
    ensures level == ModerateLevel <==>
              !(2 in RiskCodes(preds) || textPred == HighLevel) && (1 in RiskCodes(preds) || textPred == ModerateLevel)
  {
    var risks := RiskCodes(preds);
    if 2 in risks || textPred == HighLevel then HighLevel
    else if 1 in risks || textPred == ModerateLevel then ModerateLevel
    else LowLevel
  }

  /** The order Low < Moderate < High. */
  function LevelRank(level: string): nat {
    if level == HighLevel then 2 else if level == ModerateLevel then 1 else 0
  }

  /** An error entry contributes no risk code. */
  lemma ErrorsAreIgnored(textPred: string, preds: seq<ImagePrediction>, message: string)
    ensures RiskLevel(textPred, preds + [ImageError(message)]) == RiskLevel(textPred, preds)
  {
    var more := preds + [ImageError(message)];
    forall c
      ensures c in RiskCodes(more) <==> c in RiskCodes(preds)
    {
      if c in RiskCodes(more) {
        var i :| 0 <= i < |more| && HasCode(more[i], c);
        assert i < |preds|;
        assert preds[i] == more[i];
      }
      if c in RiskCodes(preds) {
        var i :| 0 <= i < |preds| && HasCode(preds[i], c);
        assert more[i] == preds[i];
      }
    }
  }

  /** Adding image predictions never lowers the level. */
  lemma MorePredictionsNeverLower(textPred: string, preds: seq<ImagePrediction>, more: seq<ImagePrediction>)
    ensures LevelRank(RiskLevel(textPred, preds)) <= LevelRank(RiskLevel(textPred, preds + more))
  {
    var all := preds + more;
    forall c | c in RiskCodes(preds)
      ensures c in RiskCodes(all)
    {
      var i :| 0 <= i < |preds| && HasCode(preds[i], c);
      assert all[i] == preds[i];
    }
  }

  function PredictionValue(p: ImagePrediction): Value {
    match p
    case ImageResult(d, r) => Object(map["disease" := Real(d as real), "risk" := Real(r as real)])
    case ImageError(m) => Str(m)
  }

  /** The object `main` prints: the text label, the image entries and the
      decision, and no probability or top-level risk key. */
  function MainOutput(textPred: string, preds: seq<ImagePrediction>): (out: map<string, Value>)
    ensures out.Keys == {"text_prediction", "image_predictions", "final_decision"}
    ensures out["text_prediction"] == Str(textPred)
    ensures out["final_decision"] == Object(map["risk_level" := Str(RiskLevel(textPred, preds))])
    ensures out["image_predictions"].Array? && |out["image_predictions"].items| == |preds|
  {
    map[
      "text_prediction" := Str(textPred),
      "image_predictions" := Array(seq(|preds|, i requires 0 <= i < |preds| => PredictionValue(preds[i]))),
      "final_decision" := Object(map["risk_level" := Str(RiskLevel(textPred, preds))])]
  }
}
