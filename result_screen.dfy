/** The result screen of the app: it reads a prediction response, shows the
    risk, a score in percent, the data the score is based on and three
    recommendations, and colours the risk label. */
module ResultScreen {
  import opened Wrappers
  import opened Text
  import opened Js

  const FusionBasis := "Fusion (Images + Tabular)"
  const TabularBasis := "Only Tabular Data"

  const HighAdvice: seq<string> := [
    "See a doctor as soon as possible.",
    "Do not ignore chest pain or shortness of breath.",
    "Avoid heavy exercise until checked by a doctor."]
  const ModerateAdvice: seq<string> := [
    "Keep track of your blood pressure and sugar.",
    "Eat healthy and avoid smoking or drinking.",
    "Visit a doctor if symptoms get worse."]
  const LowAdvice: seq<string> := [
    "Keep eating a balanced diet.",
    "Exercise regularly.",
    "Avoid smoking and excessive alcohol."]

  /** `v[1]`; None where it throws (undefined or null). A string is
      indexed by character. */
  function SecondEntry(v: Value): (r: Option<Value>)
    ensures r.None? <==> IsNullish(v)
    ensures v.Array? ==> r == Some(if |v.items| > 1 then v.items[1] else Undefined)
    ensures v.Object? ==> r == Some(Get(v.fields, "1"))
    ensures v.Bool? || v.Number? ==> r == Some(Undefined)
    ensures v.Str? && |v.s| > 1 ==> r == Some(Str([v.s[1]]))
  {
    match v
    case Undefined => None
    case Null => None
    case Array(items) => Some(if |items| > 1 then items[1] else Undefined)
    case Str(s) => Some(if |s| > 1 then Str([s[1]]) else Undefined)
    case Object(m) => Some(Get(m, "1"))
    case _ => Some(Undefined)
  }

  /** `Math.round(p * 100)`: the integer nearest to the percentage, a tie
      going up; NaN and the infinities pass through. */
  function Percent(p: Num): (r: Num)
    ensures p.Finite? ==> r.Finite? && r.x == r.x.Floor as real
    ensures p.Finite? ==> p.x * 100.0 - 0.5 < r.x <= p.x * 100.0 + 0.5
    ensures !p.Finite? ==> r == p
  {
    match p
    case Finite(x) => Round(Finite(x * 100.0))
    case _ => p
  }

  function FusionProb(res: map<string, Value>): Value {
    Prop(Get(res, "fusion_model"), "disease_prob")
  }

  function TabularProbs(res: map<string, Value>): Value {
    Prop(Get(res, "tabular_model"), "probabilities")
  }

  /** `res.final_decision || "Unknown"`. */
  function Decision(res: map<string, Value>): (d: Value)
    ensures Truthy(d)
    ensures Truthy(Get(res, "final_decision")) ==> d == Get(res, "final_decision")
    ensures !Truthy(Get(res, "final_decision")) ==> d == Str("Unknown")
  {
    Or(Get(res, "final_decision"), Str("Unknown"))
  }

  /** The recommendation set for a decision, by case-insensitive substring. */
  function Recommendations(decision: string): (recs: seq<string>)
    ensures |recs| == 3
    ensures recs == HighAdvice <==> Contains(Lower(decision), "high")
    ensures recs == ModerateAdvice <==>
              !Contains(Lower(decision), "high") &&
              (Contains(Lower(decision), "moderate") || Contains(Lower(decision), "medium"))
    ensures recs == LowAdvice <==>
              !Contains(Lower(decision), "high") && !Contains(Lower(decision), "moderate") &&
              !Contains(Lower(decision), "medium")
  {
    var text := Lower(decision);
    if Contains(text, "high") then HighAdvice
    else if Contains(text, "moderate") || Contains(text, "medium") then ModerateAdvice
    else LowAdvice
  }

  /** `getRiskColor(r)`: substrings searched in the order high, low,
      moderate/medium; None where `toLowerCase` throws (a truthy non-string). */
  function RiskColor(r: Value): (color: Option<string>)
    ensures !Truthy(r) ==> color == Some("#000")
    ensures Truthy(r) && !r.Str? ==> color.None?
    ensures r.Str? ==> color.Some? && color.value in {"#800000", "#388E3C", "#F9A825", "#000"}
    ensures r.Str? && Contains(Lower(r.s), "high") ==> color == Some("#800000")
    ensures r.Str? && !Contains(Lower(r.s), "high") && Contains(Lower(r.s), "low") ==> color == Some("#388E3C")
    ensures r.Str? && !Contains(Lower(r.s), "high") && !Contains(Lower(r.s), "low") &&
              (Contains(Lower(r.s), "moderate") || Contains(Lower(r.s), "medium")) ==>
              color == Some("#F9A825")
    ensures r.Str? && !Contains(Lower(r.s), "high") && !Contains(Lower(r.s), "low") &&
              !Contains(Lower(r.s), "moderate") && !Contains(Lower(r.s), "medium") ==>
              color == Some("#000")
  {
    var v := Or(r, Str(""));
    if !v.Str? then None
    else
      var text := Lower(v.s);
      if Contains(text, "high") then Some("#800000")
      else if Contains(text, "low") then Some("#388E3C")
      else if Contains(text, "moderate") || Contains(text, "medium") then Some("#F9A825")
      else Some("#000")
  }

  /** The component state of the screen. */
  class ResultView {
    var risk: Value
    var recommendations: seq<string>
    var predictionScore: Num
    var basedOn: string

    constructor ()
      ensures risk == Str("Unknown") && recommendations == []
      ensures predictionScore == Finite(0.0) && basedOn == "Pending"
    {
      risk := Str("Unknown");
      recommendations := [];
      predictionScore := Finite(0.0);
      basedOn := "Pending";
    }

    /** `processResult(res)`; `threw` when it stops at an exception, with
        the state updates made before it kept. */
    method ProcessResult(res: map<string, Value>) returns (threw: bool)
      modifies this
      ensures FusionProb(res) != Undefined ==>
                basedOn == FusionBasis && predictionScore == Percent(ToNumber(FusionProb(res)))
      ensures FusionProb(res) == Undefined && TabularProbs(res) != Undefined && SecondEntry(TabularProbs(res)).None? ==>
                threw && unchanged(this)
      ensures FusionProb(res) == Undefined && TabularProbs(res) != Undefined && SecondEntry(TabularProbs(res)).Some? ==>
                basedOn == TabularBasis && predictionScore == Percent(ToNumber(SecondEntry(TabularProbs(res)).value))
      ensures FusionProb(res) == Undefined && TabularProbs(res) == Undefined ==>
                basedOn == old(basedOn) && predictionScore == Finite(0.0)
      ensures !threw ==> risk == Decision(res)
      ensures (FusionProb(res) != Undefined || TabularProbs(res) == Undefined ||
               SecondEntry(TabularProbs(res)).Some?) ==>
                risk == Decision(res) &&
                if risk.Str? then !threw && recommendations == Recommendations(risk.s)
                else threw && recommendations == old(recommendations)
    {
      var prob := Finite(0.0);
      var finalDecision := Or(Get(res, "final_decision"), Str("Unknown"));
      var fusion := Prop(Get(res, "fusion_model"), "disease_prob");
      if fusion != Undefined {
        prob := Percent(ToNumber(fusion));
        basedOn := FusionBasis;
      } else {
        var tabular := Prop(Get(res, "tabular_model"), "probabilities");
        if tabular != Undefined {
          var entry := SecondEntry(tabular);
          if entry.None? {
            // `null[1]` throws before any state is set
            return true;
          }
          prob := Percent(ToNumber(entry.value));
          basedOn := TabularBasis;
        }
      }
      risk := finalDecision;
      predictionScore := prob;
      if !finalDecision.Str? {
        // `toLowerCase` is not a function of a non-string
        return true;
      }
      recommendations := ChooseRecommendations(finalDecision.s);
      threw := false;
    }
  }

  /** The `let recs` steps of `processResult`. */
  method ChooseRecommendations(finalDecision: string) returns (recs: seq<string>)
    ensures recs == Recommendations(finalDecision)
  {
    recs := [];
    var text := Lower(finalDecision);
    if Contains(text, "high") {
      recs := HighAdvice;
    } else if Contains(text, "moderate") || Contains(text, "medium") {
      recs := ModerateAdvice;
    } else {
      recs := LowAdvice;
    }
  }

  lemma NoLevelLetter(text: string)
    requires 'h' !in text && 'l' !in text && 'm' !in text
    ensures !Contains(text, "high") && !Contains(text, "low") && !Contains(text, "moderate") &&
            !Contains(text, "medium")
  {
    MissingFirstCharNotContained(text, "high");
    MissingFirstCharNotContained(text, "low");
    MissingFirstCharNotContained(text, "moderate");
    MissingFirstCharNotContained(text, "medium");
  }

  /** "Unknown" contains none of the searched words. */
  lemma UnknownHasNoLevel()
    ensures var text := Lower("Unknown");
            !Contains(text, "high") && !Contains(text, "low") && !Contains(text, "moderate") &&
            !Contains(text, "medium")
  {
    var text := Lower("Unknown");
    assert text == "unknown";
    NoLevelLetter(text);
  }

  /** "Unknown" contains none of the searched words: it gets the low-risk
      advice but the fallback colour, not the low-risk green. */
  lemma UnknownIsLowAdviceBlackColour()
    ensures Recommendations("Unknown") == LowAdvice
    ensures RiskColor(Str("Unknown")) == Some("#000")
  {
    UnknownHasNoLevel();
  }

  /** The two checks disagree where a label names two levels: "low" is
      searched before "moderate" for the colour but not for the advice. */
  lemma MixedLabelGetsModerateAdvice()
    ensures Recommendations("Low-Moderate") == ModerateAdvice
  {
    MixedLabelWords();
  }

  lemma MixedLabelGetsLowColour()
    ensures RiskColor(Str("Low-Moderate")) == Some("#388E3C")
  {
    MixedLabelWords();
  }

  lemma MixedLabelWords()
    ensures Lower("Low-Moderate") == "low-moderate"
    ensures !Contains("low-moderate", "high")
    ensures Contains("low-moderate", "low") && Contains("low-moderate", "moderate")
  {
    MixedLabelLowered();
    MissingFirstCharNotContained("low-moderate", "high");
    MixedLabelHasModerate();
  }

  lemma MixedLabelLowered()
    ensures Lower("Low-Moderate") == "low-moderate"
  {
  }

  lemma MixedLabelHasModerate()
    ensures Contains("low-moderate", "moderate")
  {
    StartsAtContains("low-moderate", "moderate", 4);
  }

  /** A score of 0.62 shows as 62. */
  lemma ScoreIsRoundedPercent()
    ensures Percent(Finite(0.62)) == Finite(62.0)
    ensures Percent(Finite(0.625)) == Finite(63.0)
  {
    assert (62.0 + 0.5).Floor == 62;
    assert (62.5 + 0.5).Floor == 63;
  }
}
