/** The prediction endpoint of the backend (`POST /api/predict` and
    `GET /api/predict/history`): form fields are normalised into numeric
    features, the external predictor is asked, its answer is reduced to one
    probability and one risk label, and a Prediction record is stored. */
module PredictRoute {
  import opened Wrappers
  import opened Text
  import opened Js
  import opened Listing
  import Risk

  const YesWords: set<string> := {"yes", "y", "true", "1"}
  const MaleWords: set<string> := {"male", "m"}

  // ---------------------------------------------------------------------
  // Field normalisation
  // ---------------------------------------------------------------------

  /** `ynTo01`: 1 when `String(v).trim().toLowerCase()` is a yes word. */
  function YesNoFlag(v: Value): (flag: int)
    ensures flag == 0 || flag == 1
    ensures IsNullish(v) ==> flag == 0
    ensures v.Str? ==> (flag == 1 <==> Lower(Trim(v.s)) in YesWords)
  {
    match v
    case Undefined | Null => 0
    case Str(s) => if Lower(Trim(s)) in YesWords then 1 else 0
    // String(true) is "true", String(false) is "false"
    case Bool(b) => if b then 1 else 0
    // 1 is the only number whose text is a yes word
    case Number(n) => if n == Finite(1.0) then 1 else 0
    // a one-element array prints as its element; a longer one holds a comma
    case Array(items) => if |items| == 1 then YesNoFlag(items[0]) else 0
    // "[object Object]"
    case Object(_) => 0
  }

  /** `genderTo01`: 1 only for "male"/"m" after trimming and lower-casing;
      "female"/"f" and everything else are 0. */
  function GenderFlag(v: Value): (flag: int)
    ensures flag == 0 || flag == 1
    ensures !Truthy(v) ==> flag == 0
    ensures v.Str? ==> (flag == 1 <==> Lower(Trim(v.s)) in MaleWords)
  {
    if !Truthy(v) then 0
    else
      match v
      case Str(s) => if Lower(Trim(s)) in MaleWords then 1 else 0
      case Array(items) => if |items| == 1 then GenderFlag(items[0]) else 0
      // "true", the text of a number and "[object Object]" are not male words
      case _ => 0
  }

  /** `toNumber(v, def)`: `Number(v)` when it is finite, else the default. */
  function ToNumberOr(v: Value, default: real): (x: real)
    ensures ToNumber(v).Finite? ==> x == ToNumber(v).x
    ensures !ToNumber(v).Finite? ==> x == default
  {
    match ToNumber(v)
    case Finite(x) => x
    case _ => default
  }

  /** The systolic pressure of a reading like "120/80": the text before the
      first "/" when the value is a string holding one, else the whole value. */
  function SystolicPressure(bloodPressure: Value): (p: real)
    ensures bloodPressure.Str? ==> p == ToNumberOr(Str(BeforeFirst(bloodPressure.s, '/')), 0.0)
    ensures !bloodPressure.Str? ==> p == ToNumberOr(bloodPressure, 0.0)
  {
    assert bloodPressure.Str? && '/' !in bloodPressure.s ==> BeforeFirst(bloodPressure.s, '/') == bloodPressure.s;
    if bloodPressure.Str? && '/' in bloodPressure.s
    then ToNumberOr(Str(BeforeFirst(bloodPressure.s, '/')), 0.0)
    else ToNumberOr(bloodPressure, 0.0)
  }

  /** The numeric features sent to the predictor. */
  datatype TextPayload = TextPayload(
    age: real, gender: int, weight: real, height: real,
    smokingStatus: int, alcoholConsumption: int, cholesterol: real,
    bp: real, sugar: int, chestPainType: int)

  function BuildTextPayload(body: map<string, Value>): (p: TextPayload)
    ensures p.gender in {0, 1} && p.smokingStatus in {0, 1} && p.alcoholConsumption in {0, 1}
    ensures p.sugar in {0, 1} && p.chestPainType in {0, 1}
    ensures p.bp == SystolicPressure(Get(body, "bloodPressure"))
    ensures p.age == ToNumberOr(Get(body, "age"), 0.0)
  {
    TextPayload(
      age := ToNumberOr(Get(body, "age"), 0.0),
      gender := GenderFlag(Get(body, "gender")),
      weight := ToNumberOr(Get(body, "weight"), 0.0),
      height := ToNumberOr(Get(body, "height"), 0.0),
      smokingStatus := YesNoFlag(Get(body, "smokingStatus")),
      alcoholConsumption := YesNoFlag(Get(body, "alcoholConsumption")),
      cholesterol := ToNumberOr(Get(body, "cholesterolLevel"), 0.0),
      bp := SystolicPressure(Get(body, "bloodPressure")),
      sugar := YesNoFlag(Get(body, "fastingBloodSugar")),
      chestPainType := YesNoFlag(Get(body, "chestPainType")))
  }

  /** Text without a digit converts to 0 (through NaN and the default, or
      because blank text is 0). */
  lemma NonNumericIsZero(s: string)
    requires !HasDecimalDigit(s)
    ensures ToNumberOr(Str(s), 0.0) == 0.0
  {
    NoDigitNoFiniteValue(s);
  }

  /** A reading "<a>/<anything>" has systolic pressure a. */
  lemma SystolicOfReading(a: nat, diastolic: string)
    ensures SystolicPressure(Str(NatText(a) + "/" + diastolic)) == a as real
  {
    var s := NatText(a) + "/" + diastolic;
    assert '/' in s by { assert s[|NatText(a)|] == '/'; }
    assert '/' !in NatText(a);
    BeforeFirstOfJoin(NatText(a), diastolic);
    NatTextRoundTrip(a);
  }

  lemma {:induction false} BeforeFirstOfJoin(a: string, b: string)
    requires '/' !in a
    ensures BeforeFirst(a + "/" + b, '/') == a
  {
    if a != [] {
      assert (a + "/" + b)[1..] == a[1..] + "/" + b;
      BeforeFirstOfJoin(a[1..], b);
    }
  }

  /** Text without digits gives pressure 0, with or without a "/". */
  lemma NonNumericPressureIsZero(s: string)
    requires !HasDecimalDigit(s)
    ensures SystolicPressure(Str(s)) == 0.0
  {
    if '/' in s {
      NonNumericIsZero(BeforeFirst(s, '/'));
    } else {
      NonNumericIsZero(s);
    }
  }

  // ---------------------------------------------------------------------
  // Reading the predictor's answer
  // ---------------------------------------------------------------------

  /** `typeof raw.text_prob === "number" ? raw.text_prob : 0`. */
  function TextProb(raw: map<string, Value>): Num {
    var v := Get(raw, "text_prob");
    if v.Number? then v.n else Finite(0.0)
  }

  /** `typeof raw.image_prob === "number" ? raw.image_prob : null`. */
  function ImageProb(raw: map<string, Value>): Option<Num> {
    var v := Get(raw, "image_prob");
    if v.Number? then Some(v.n) else None
  }

  /** The probability before clamping: `final_prob` when it is a number, else
      the mean of the text and image probabilities when there is an image
      probability, else the text probability. */
  function ChosenProbability(raw: map<string, Value>): (p: Num)
    ensures Get(raw, "final_prob").Number? ==> p == Get(raw, "final_prob").n
    ensures !Get(raw, "final_prob").Number? && ImageProb(raw).Some? ==>
              p == Half(Add(TextProb(raw), ImageProb(raw).value))
    ensures !Get(raw, "final_prob").Number? && ImageProb(raw).None? ==> p == TextProb(raw)
  {
    var f := Get(raw, "final_prob");
    if f.Number? then f.n
    else if ImageProb(raw).Some? then Half(Add(TextProb(raw), ImageProb(raw).value))
    else TextProb(raw)
  }

  /** `Math.max(0, Math.min(1, Number(finalProb)))`: in [0, 1] unless NaN. */
  function FinalProbability(raw: map<string, Value>): (p: Num)
    ensures !p.Inf?
    ensures p.Finite? ==> 0.0 <= p.x <= 1.0
    ensures p.NaN? <==> ChosenProbability(raw).NaN?
    ensures ChosenProbability(raw).Finite? && 0.0 <= ChosenProbability(raw).x <= 1.0 ==>
              p == ChosenProbability(raw)
    ensures ChosenProbability(raw).Finite? && ChosenProbability(raw).x > 1.0 ==> p == Finite(1.0)
    ensures ChosenProbability(raw).Finite? && ChosenProbability(raw).x < 0.0 ==> p == Finite(0.0)
    ensures ChosenProbability(raw) == Inf(false) ==> p == Finite(1.0)
    ensures ChosenProbability(raw) == Inf(true) ==> p == Finite(0.0)
  {
    Clamp(ChosenProbability(raw), 0.0, 1.0)
  }

  /** `raw.risk || raw.final_risk || <label from p>`: a label the predictor
      supplies wins over the thresholds. */
  function RiskLabel(raw: map<string, Value>, p: Num): (risk: Value)
    ensures Truthy(Get(raw, "risk")) ==> risk == Get(raw, "risk")
    ensures !Truthy(Get(raw, "risk")) && Truthy(Get(raw, "final_risk")) ==> risk == Get(raw, "final_risk")
    ensures !Truthy(Get(raw, "risk")) && !Truthy(Get(raw, "final_risk")) ==> risk == Str(Risk.Classify(p))
    ensures Truthy(risk)
  {
    Or(Or(Get(raw, "risk"), Get(raw, "final_risk")), Str(Risk.Classify(p)))
  }

  const HighAdvice := "\U{26A0}\U{FE0F} Consult a cardiologist immediately."
  const MediumAdvice := "\U{26A0}\U{FE0F} Adopt a healthy lifestyle and routine checkups."
  const DefaultAdvice := "\U{2705} Maintain a healthy lifestyle."

  /** The recommendation, by strict equality with "High" and "Medium". */
  function Recommendation(risk: Value): (advice: string)
    ensures advice == HighAdvice <==> risk == Str(Risk.High)
    ensures advice == MediumAdvice <==> risk == Str(Risk.Medium)
    ensures advice == DefaultAdvice <==> risk != Str(Risk.High) && risk != Str(Risk.Medium)
  {
    if risk == Str(Risk.High) then HighAdvice
    else if risk == Str(Risk.Medium) then MediumAdvice
    else DefaultAdvice
  }

  /** `(reportName || "Untitled Report").trim()`; None when the value is a
      truthy non-string, whose missing `trim` throws. */
  function StoredReportName(v: Value): (name: Option<string>)
    ensures !Truthy(v) ==> name == Some("Untitled Report")
    ensures v.Str? && v.s != "" ==> name == Some(Trim(v.s))
    ensures Truthy(v) && !v.Str? ==> name.None?
    ensures name.Some? ==> Trimmed(name.value)
  {
    if !Truthy(v) then
      assert Trimmed("Untitled Report");
      Some("Untitled Report")
    else if v.Str? then
      TrimIsTrimmed(v.s);
      Some(Trim(v.s))
    else None
  }

  /** A name of white space only is stored as the empty string. */
  lemma BlankNameBecomesEmpty(s: string)
    requires s != "" && AllSpace(s)
    ensures StoredReportName(Str(s)) == Some("")
  {
    TrimEmptyIffAllSpace(s);
  }

  /** `imageProb != null ? Number(imageProb.toFixed(2)) : undefined`. */
  function StoredImageProb(raw: map<string, Value>): Option<Num> {
    if ImageProb(raw).Some? then Some(Fixed2(ImageProb(raw).value)) else None
  }

  /** The constraints the Prediction schema places on what this handler
      stores: a non-empty reportName, a risk among Low/Medium/High, and
      probabilities that are not NaN, which Mongoose's Number cast refuses. */
  predicate SchemaAccepts(reportName: string, risk: Value, finalProbability: Num, textProbability: Num,
                          imageProbability: Option<Num>) {
    && reportName != "" && risk.Str? && risk.s in Risk.SchemaLabels
    && !finalProbability.NaN? && !textProbability.NaN?
    && (imageProbability.Some? ==> !imageProbability.value.NaN?)
  }

  function Verdict(risk: Value): string {
    if risk == Str(Risk.High) then "Heart Disease" else "No Heart Disease"
  }

  // ---------------------------------------------------------------------
  // The store and the handler
  // ---------------------------------------------------------------------

  datatype Prediction = Prediction(
    id: nat, userId: nat, reportName: string, risk: string,
    finalProbability: Num, textProbability: Num, imageProbability: Option<Num>,
    recommendation: string, images: seq<string>, createdAt: int)

  datatype PredictReply =
    | Unauthorized
    | InternalError
    | Predicted(
        result: string, risk: string, finalProbability: Num, textProbability: Num,
        imageProbability: Option<Num>, recommendation: string, reportName: string,
        userId: nat, savedImages: seq<string>)

  /** The predictor behind `predictHeartDisease`: features and image paths in,
      the normalised answer out, or None when it rejects (timeout, crash,
      an `error` field, unparsable output). */
  type Predictor = (TextPayload, seq<string>) -> Option<map<string, Value>>

  function SavedImagePaths(filenames: seq<string>): (paths: seq<string>)
    ensures |paths| == |filenames|
    ensures forall i :: 0 <= i < |filenames| ==> paths[i] == "/uploads/predict/" + filenames[i]
  {
    seq(|filenames|, i requires 0 <= i < |filenames| => "/uploads/predict/" + filenames[i])
  }

  /** The JSON body of a successful reply; an absent image probability is
      left out, as `JSON.stringify` drops undefined fields. */
  function ReplyJson(r: PredictReply): (json: map<string, Value>)
    requires r.Predicted?
    ensures json.Keys <= {"result", "risk", "finalProbability", "textProbability", "imageProbability",
                          "recommendation", "reportName", "userId", "savedImages"}
  {
    var fields := map[
      "result" := Str(r.result), "risk" := Str(r.risk), "finalProbability" := Number(r.finalProbability),
      "textProbability" := Number(r.textProbability), "recommendation" := Str(r.recommendation),
      "reportName" := Str(r.reportName), "userId" := Real(r.userId as real),
      "savedImages" := Array(seq(|r.savedImages|, i requires 0 <= i < |r.savedImages| => Str(r.savedImages[i])))];
    if r.imageProbability.Some? then fields["imageProbability" := Number(r.imageProbability.value)] else fields
  }

  /** What one request does: the reply, and the record it saves if any. */
  datatype Handled = Handled(reply: PredictReply, saved: Option<Prediction>)

  function SavedList(saved: Option<Prediction>): seq<Prediction> {
    if saved.Some? then [saved.value] else []
  }

  /** The handler as a function of the request, the predictor, the id the
      new record gets and the clock. */
  function Respond(caller: Option<nat>, body: map<string, Value>, filenames: seq<string>,
                   predictor: Predictor, id: nat, now: int): (h: Handled)
    ensures h.saved.Some? <==> h.reply.Predicted?
    ensures caller.None? ==> h.reply == Unauthorized
    ensures caller.Some? && predictor(BuildTextPayload(body), filenames).None? ==> h.reply == InternalError
    ensures h.saved.Some? ==>
              var rec := h.saved.value;
              && rec.id == id && rec.createdAt == now
              && Some(rec.userId) == caller
              && rec.risk in Risk.SchemaLabels
              && rec.reportName != "" && Trimmed(rec.reportName)
              && (h.reply.result == "Heart Disease" <==> rec.risk == Risk.High)
              && rec.images == SavedImagePaths(filenames)
              && h.reply == Predicted(h.reply.result, rec.risk, rec.finalProbability,
                                     rec.textProbability, rec.imageProbability,
                                     rec.recommendation, rec.reportName, rec.userId, rec.images)
    ensures caller.Some? && predictor(BuildTextPayload(body), filenames).Some? ==>
              var raw := predictor(BuildTextPayload(body), filenames).value;
              var p := FinalProbability(raw);
              var risk := RiskLabel(raw, p);
              var name := StoredReportName(Get(body, "reportName"));
              && (h.reply.Predicted? <==>
                    name.Some? && SchemaAccepts(name.value, risk, Fixed2(p), Fixed2(TextProb(raw)), StoredImageProb(raw)))
              && (h.saved.Some? ==>
                    var rec := h.saved.value;
                    && rec.risk == risk.s && Some(rec.reportName) == name
                    && rec.finalProbability == Fixed2(p) && rec.textProbability == Fixed2(TextProb(raw))
                    && rec.imageProbability == StoredImageProb(raw)
                    && rec.recommendation == Recommendation(risk))
  {
    if caller.None? then Handled(Unauthorized, None)
    else
      var answer := predictor(BuildTextPayload(body), filenames);
      if answer.None? then Handled(InternalError, None)
      else SaveAnswer(caller.value, answer.value, StoredReportName(Get(body, "reportName")), filenames, id, now)
  }

  /** The handler once the predictor has answered `raw` and the report name
      has been read (None: it could not be trimmed). */
  function SaveAnswer(caller: nat, raw: map<string, Value>, name: Option<string>,
                      filenames: seq<string>, id: nat, now: int): Handled
  {
    var p := FinalProbability(raw);
    var risk := RiskLabel(raw, p);
    if name.None? || !SchemaAccepts(name.value, risk, Fixed2(p), Fixed2(TextProb(raw)), StoredImageProb(raw))
    then Handled(InternalError, None)
    else
      var rec := Prediction(
        id, caller, name.value, risk.s, Fixed2(p), Fixed2(TextProb(raw)), StoredImageProb(raw),
        Recommendation(risk), SavedImagePaths(filenames), now);
      Handled(
        Predicted(Verdict(risk), risk.s, rec.finalProbability, rec.textProbability,
                  rec.imageProbability, rec.recommendation, rec.reportName,
                  caller, rec.images),
        Some(rec))
  }

  /** The `let systolicBP` steps of the handler. */
  method ReadSystolic(bloodPressure: Value) returns (systolicBP: real)
    ensures systolicBP == SystolicPressure(bloodPressure)
  {
    systolicBP := 0.0;
    if bloodPressure.Str? && '/' in bloodPressure.s {
      systolicBP := ToNumberOr(Str(BeforeFirst(bloodPressure.s, '/')), 0.0);
    } else {
      systolicBP := ToNumberOr(bloodPressure, 0.0);
    }
  }

  /** The `textPayload` the handler builds from the form fields. */
  method ReadTextPayload(body: map<string, Value>) returns (textPayload: TextPayload)
    ensures textPayload == BuildTextPayload(body)
  {
    var systolicBP := ReadSystolic(Get(body, "bloodPressure"));
    textPayload := TextPayload(
      age := ToNumberOr(Get(body, "age"), 0.0),
      gender := GenderFlag(Get(body, "gender")),
      weight := ToNumberOr(Get(body, "weight"), 0.0),
      height := ToNumberOr(Get(body, "height"), 0.0),
      smokingStatus := YesNoFlag(Get(body, "smokingStatus")),
      alcoholConsumption := YesNoFlag(Get(body, "alcoholConsumption")),
      cholesterol := ToNumberOr(Get(body, "cholesterolLevel"), 0.0),
      bp := systolicBP,
      sugar := YesNoFlag(Get(body, "fastingBloodSugar")),
      chestPainType := YesNoFlag(Get(body, "chestPainType")));
  }

  /** The `textProb`, `imageProb` and `let finalProb` steps of the handler. */
  method ReadProbabilities(raw: map<string, Value>) returns (textProb: Num, imageProb: Option<Num>, finalProb: Num)
    ensures textProb == TextProb(raw) && imageProb == ImageProb(raw)
    ensures finalProb == FinalProbability(raw)
    ensures !finalProb.Inf? && (finalProb.Finite? ==> 0.0 <= finalProb.x <= 1.0)
  {
    textProb := if Get(raw, "text_prob").Number? then Get(raw, "text_prob").n else Finite(0.0);
    imageProb := if Get(raw, "image_prob").Number? then Some(Get(raw, "image_prob").n) else None;
    finalProb := textProb;
    if Get(raw, "final_prob").Number? {
      finalProb := Get(raw, "final_prob").n;
    } else if imageProb.Some? {
      finalProb := Half(Add(textProb, imageProb.value));
    }
    finalProb := Clamp(finalProb, 0.0, 1.0);
  }

  /** `(reportName || "Untitled Report").trim()`, None where it throws. */
  method ReadReportName(v: Value) returns (name: Option<string>)
    ensures name == StoredReportName(v)
  {
    var nameValue := Or(v, Str("Untitled Report"));
    if !nameValue.Str? {
      return None;
    }
    name := Some(Trim(nameValue.s));
  }

  /** The `let recommendation` steps of the handler. */
  method Advise(risk: Value) returns (recommendation: string)
    ensures recommendation == Recommendation(risk)
  {
    recommendation := DefaultAdvice;
    if risk == Str(Risk.High) {
      recommendation := HighAdvice;
    } else if risk == Str(Risk.Medium) {
      recommendation := MediumAdvice;
    }
  }

  class PredictionStore {
    var records: seq<Prediction>
    var nextId: nat

    ghost predicate Valid()
      reads this
    {
      forall i :: 0 <= i < |records| ==> records[i].id < nextId
    }

    constructor ()
      ensures Valid() && records == []
    {
      records := [];
      nextId := 0;
    }

    /** `POST /api/predict`: the reply and the new store are those of
        `Respond` for the next free id. */
    method Post(caller: Option<nat>, body: map<string, Value>, filenames: seq<string>,
                predictor: Predictor, now: int)
      returns (reply: PredictReply)
      requires Valid()
      modifies this
      ensures Valid()
      ensures var h := Respond(caller, body, filenames, predictor, old(nextId), now);
              reply == h.reply && records == old(records) + SavedList(h.saved)
              && nextId == old(nextId) + |SavedList(h.saved)|
    {
      if caller.None? {
        return Unauthorized;
      }
      var textPayload := ReadTextPayload(body);
      var answer := predictor(textPayload, filenames);
      if answer.None? {
        return InternalError;
      }
      var raw := answer.value;
      var textProb, imageProb, finalProb := ReadProbabilities(raw);
      var risk := Or(Or(Get(raw, "risk"), Get(raw, "final_risk")), Str(Risk.Classify(finalProb)));
      var recommendation := Advise(risk);

      var name := ReadReportName(Get(body, "reportName"));
      if name.None? {
        // `trim` is not a function of a non-string: the handler's catch answers 500
        return InternalError;
      }
      var reportName := name.value;
      var storedImageProb := if imageProb.Some? then Some(Fixed2(imageProb.value)) else None;
      if !SchemaAccepts(reportName, risk, Fixed2(finalProb), Fixed2(textProb), storedImageProb) {
        // the Prediction document fails validation on save
        return InternalError;
      }
      var rec := Prediction(
        nextId, caller.value, reportName, risk.s, Fixed2(finalProb), Fixed2(textProb), storedImageProb,
        recommendation, SavedImagePaths(filenames), now);
      var result := if risk == Str(Risk.High) then "Heart Disease" else "No Heart Disease";
      reply := Predicted(
        result, risk.s, rec.finalProbability, rec.textProbability, rec.imageProbability,
        recommendation, reportName, caller.value, rec.images);
      assert risk == RiskLabel(raw, FinalProbability(raw));
      assert result == Verdict(risk);
      assert predictor(BuildTextPayload(body), filenames) == Some(raw);
      assert SaveAnswer(caller.value, raw, Some(reportName), filenames, nextId, now) == Handled(reply, Some(rec));
      Append(rec);
    }

    /** `new Prediction({...}).save()`: the record gets the next id. */
    method Append(rec: Prediction)
      requires Valid() && rec.id == nextId
      modifies this
      ensures Valid()
      ensures records == old(records) + [rec] && nextId == old(nextId) + 1
    {
      records := records + [rec];
      nextId := nextId + 1;
    }

    /** `GET /api/predict/history`: the caller's predictions, newest first. */
    function History(caller: nat): (list: seq<Prediction>)
      reads this
      ensures forall r :: r in list <==> r in records && r.userId == caller
      ensures NewestFirstBy(list, (r: Prediction) => r.createdAt)
      ensures multiset(list) == multiset(Filter(records, (r: Prediction) => r.userId == caller))
    {
      NewestFirst(Filter(records, (r: Prediction) => r.userId == caller), (r: Prediction) => r.createdAt)
    }
  }

  /** A prediction is stored as High only on the predictor's own word or
      on a clamped probability of at least 0.7. */
  lemma SavedHighHasGrounds(caller: Option<nat>, body: map<string, Value>, filenames: seq<string>,
                            predictor: Predictor, id: nat, now: int)
    requires Respond(caller, body, filenames, predictor, id, now).saved.Some?
    requires Respond(caller, body, filenames, predictor, id, now).saved.value.risk == Risk.High
    ensures var raw := predictor(BuildTextPayload(body), filenames).value;
            || Get(raw, "risk") == Str(Risk.High)
            || (!Truthy(Get(raw, "risk")) && Get(raw, "final_risk") == Str(Risk.High))
            || (!Truthy(Get(raw, "risk")) && !Truthy(Get(raw, "final_risk")) &&
                FinalProbability(raw).Finite? && FinalProbability(raw).x >= 0.7)
  {
    var raw := predictor(BuildTextPayload(body), filenames).value;
    var p := FinalProbability(raw);
    if !Truthy(Get(raw, "risk")) && !Truthy(Get(raw, "final_risk")) {
      assert Risk.Classify(p) == Risk.High;
    }
  }

  /** Any non-empty predictor label outside the schema's vocabulary, such as
      "Moderate", is passed through unchanged and so cannot be saved. */
  lemma ForeignLabelIsNotSaved(raw: map<string, Value>, foreign: string, name: string, finalProbability: Num,
                               textProbability: Num, imageProbability: Option<Num>)
    requires Get(raw, "risk") == Str(foreign) && foreign != "" && foreign !in Risk.SchemaLabels
    ensures RiskLabel(raw, FinalProbability(raw)) == Str(foreign)
    ensures !SchemaAccepts(name, RiskLabel(raw, FinalProbability(raw)), finalProbability, textProbability,
                           imageProbability)
  {
  }

  /** Opposite infinite text and image probabilities average to NaN, which
      the route keeps and the schema refuses: the request fails with 500. */
  lemma OppositeInfinitiesAreNotSaved(raw: map<string, Value>)
    requires Get(raw, "final_prob") == Undefined
    requires Get(raw, "text_prob") == Number(Inf(false)) && Get(raw, "image_prob") == Number(Inf(true))
    ensures FinalProbability(raw) == NaN
    ensures forall name: string, risk: Value ::
              !SchemaAccepts(name, risk, Fixed2(FinalProbability(raw)), Fixed2(TextProb(raw)), StoredImageProb(raw))
  {
  }

  /** Without a label, the stored risk follows the thresholds on the clamped
      probability; a probability of 0.5 and 0.7 averages to Medium. */
  lemma MeanOfTextAndImage()
    ensures var raw := map["text_prob" := Real(0.5), "image_prob" := Real(0.7)];
            FinalProbability(raw) == Finite(0.6) &&
            RiskLabel(raw, FinalProbability(raw)) == Str(Risk.Medium)
  {
    var raw := map["text_prob" := Real(0.5), "image_prob" := Real(0.7)];
    assert Get(raw, "final_prob") == Undefined;
    assert Get(raw, "risk") == Undefined && Get(raw, "final_risk") == Undefined;
  }

  /** An empty answer gives probability 0 and label Low. */
  lemma EmptyAnswerIsLow()
    ensures FinalProbability(map[]) == Finite(0.0)
    ensures RiskLabel(map[], FinalProbability(map[])) == Str(Risk.Low)
  {
  }
}
