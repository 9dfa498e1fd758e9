/** `normalizeResult`, the second normalisation of the predictor's answer:
    it runs on the parsed JSON object before the prediction route sees it,
    writes `risk` and `final_prob` into that object, and rounds the three
    probability fields to two decimals. */
module PredictCombined {
  import opened Js
  import Risk
  import PythonPredict
  import PredictRoute

  /** The parsed answer, an object whose properties are updated in place. */
  class RawResult {
    var fields: map<string, Value>

    constructor (fields0: map<string, Value>)
      ensures fields == fields0
    {
      fields := fields0;
    }
  }

  /** The keys of the rounding loop, in its order. */
  const RoundedKeys: seq<string> := ["final_prob", "text_prob", "image_prob"]

  // ---------------------------------------------------------------------
  // The steps as functions of the property map
  // ---------------------------------------------------------------------

  /** `if (!r.risk && r.final_risk) r.risk = r.final_risk`. */
  function MapRisk(m: map<string, Value>): map<string, Value> {
    if !Truthy(Get(m, "risk")) && Truthy(Get(m, "final_risk")) then m["risk" := m["final_risk"]] else m
  }

  /** The value `final_prob` gets when it is not already a number. */
  function FallbackProb(m: map<string, Value>): Num {
    var t := Get(m, "text_prob");
    var i := Get(m, "image_prob");
    if t.Number? && i.Number? then Half(Add(t.n, i.n))
    else if t.Number? then t.n
    else Finite(0.0)
  }

  function ChooseFinalProb(m: map<string, Value>): map<string, Value> {
    if Get(m, "final_prob").Number? then m else m["final_prob" := Number(FallbackProb(m))]
  }

  /** `if (!r.risk && typeof r.final_prob === "number") r.risk = <label>`. */
  function DeriveRisk(m: map<string, Value>): map<string, Value> {
    var f := Get(m, "final_prob");
    if !Truthy(Get(m, "risk")) && f.Number? then m["risk" := Str(Risk.Classify(f.n))] else m
  }

  /** `Number(Number(v).toFixed(2))`. */
  function Rounded(v: Value): Value {
    Number(Fixed2(ToNumber(v)))
  }

  /** One turn of the rounding loop: fields holding null or undefined stay. */
  function RoundKey(m: map<string, Value>, k: string): map<string, Value> {
    if IsNullish(Get(m, k)) then m else m[k := Rounded(m[k])]
  }

  /** The loop over a prefix of the keys. */
  function RoundKeys(m: map<string, Value>, ks: seq<string>): map<string, Value> {
    if ks == [] then m else RoundKey(RoundKeys(m, ks[..|ks| - 1]), ks[|ks| - 1])
  }

  /** The loop touches no property outside its keys. */
  lemma {:induction false} RoundKeysKeepsOthers(m: map<string, Value>, ks: seq<string>, j: string)
    requires j !in ks
    ensures Get(RoundKeys(m, ks), j) == Get(m, j)
  {
    if ks != [] {
      var init := ks[..|ks| - 1];
      RoundKeysKeepsOthers(m, init, j);
    }
  }

  /** What `normalizeResult` leaves in an object with properties `m`. */
  function Normalized(m: map<string, Value>): (n: map<string, Value>)
    ensures forall k :: k != "risk" && k !in RoundedKeys ==> Get(n, k) == Get(m, k)
  {
    var d := DeriveRisk(ChooseFinalProb(MapRisk(m)));
    assert forall k :: k != "risk" && k !in RoundedKeys ==> Get(RoundKeys(d, RoundedKeys), k) == Get(m, k) by {
      forall k | k != "risk" && k !in RoundedKeys {
        RoundKeysKeepsOthers(d, RoundedKeys, k);
      }
    }
    RoundKeys(d, RoundedKeys)
  }

  // ---------------------------------------------------------------------
  // The function itself
  // ---------------------------------------------------------------------

  /** `normalizeResult(r)`. A null `r` stands for every input that is falsy
      or not an object: the answer is then a new empty object. */
  method NormalizeResult(r: RawResult?) returns (out: RawResult)
    modifies r
    ensures r == null ==> fresh(out) && out.fields == map[]
    ensures r != null ==> out == r && r.fields == Normalized(old(r.fields))
  {
    if r == null {
      out := new RawResult(map[]);
      return;
    }
    if !Truthy(Get(r.fields, "risk")) && Truthy(Get(r.fields, "final_risk")) {
      r.fields := r.fields["risk" := r.fields["final_risk"]];
    }
    if !Get(r.fields, "final_prob").Number? {
      var t := Get(r.fields, "text_prob");
      var i := Get(r.fields, "image_prob");
      if t.Number? && i.Number? {
        r.fields := r.fields["final_prob" := Number(Half(Add(t.n, i.n)))];
      } else if t.Number? {
        r.fields := r.fields["final_prob" := t];
      } else {
        r.fields := r.fields["final_prob" := Real(0.0)];
      }
    }
    if !Truthy(Get(r.fields, "risk")) && Get(r.fields, "final_prob").Number? {
      var p := Get(r.fields, "final_prob").n;
      r.fields := r.fields["risk" := Str(if AtLeast(p, 0.7) then Risk.High else if AtLeast(p, 0.4) then Risk.Medium else Risk.Low)];
    }
    assert r.fields == DeriveRisk(ChooseFinalProb(MapRisk(old(r.fields))));
    RoundProbabilities(r);
    out := r;
  }

  /** The `forEach` over `RoundedKeys`. */
  method RoundProbabilities(r: RawResult)
    modifies r
    ensures r.fields == RoundKeys(old(r.fields), RoundedKeys)
  {
    var n := 0;
    while n < |RoundedKeys|
      invariant 0 <= n <= |RoundedKeys|
      invariant r.fields == RoundKeys(old(r.fields), RoundedKeys[..n])
    {
      var k := RoundedKeys[n];
      assert RoundedKeys[..n + 1][..n] == RoundedKeys[..n];
      ghost var before := r.fields;
      if !IsNullish(Get(r.fields, k)) {
        r.fields := r.fields[k := Number(Fixed2(ToNumber(r.fields[k])))];
      }
      assert r.fields == RoundKey(before, k);
      n := n + 1;
    }
    assert RoundedKeys[..n] == RoundedKeys;
  }

  // ---------------------------------------------------------------------
  // Properties
  // ---------------------------------------------------------------------

  /** After normalisation `final_prob` is always a number. */
  lemma FinalProbIsNumber(m: map<string, Value>)
    ensures Get(Normalized(m), "final_prob").Number?
  {
    var d := DeriveRisk(ChooseFinalProb(MapRisk(m)));
    assert Get(d, "final_prob").Number?;
    var a := RoundKey(d, "final_prob");
    assert Get(a, "final_prob").Number?;
    var b := RoundKey(a, "text_prob");
    assert RoundKeys(d, RoundedKeys[..1]) == a;
    assert RoundKeys(d, RoundedKeys[..2]) == b;
    assert RoundedKeys[..3] == RoundedKeys;
  }

  /** The risk field after normalisation: a truthy `risk` is kept, else a
      truthy `final_risk` is copied, else the label of the unrounded,
      unclamped probability. */
  lemma RiskAfterNormalization(m: map<string, Value>)
    ensures Truthy(Get(m, "risk")) ==> Get(Normalized(m), "risk") == Get(m, "risk")
    ensures !Truthy(Get(m, "risk")) && Truthy(Get(m, "final_risk")) ==>
              Get(Normalized(m), "risk") == Get(m, "final_risk")
    ensures !Truthy(Get(m, "risk")) && !Truthy(Get(m, "final_risk")) ==>
              Get(Normalized(m), "risk") == Str(Risk.Classify(Get(ChooseFinalProb(m), "final_prob").n))
  {
    var d := DeriveRisk(ChooseFinalProb(MapRisk(m)));
    RoundKeysKeepsOthers(d, RoundedKeys, "risk");
  }

  /** The probability before rounding: a numeric `final_prob` is kept, else
      the text/image mean, else the text probability, else 0. */
  lemma ChosenProbability(m: map<string, Value>)
    ensures Get(m, "final_prob").Number? ==> Get(ChooseFinalProb(m), "final_prob") == Get(m, "final_prob")
    ensures !Get(m, "final_prob").Number? && Get(m, "text_prob").Number? && Get(m, "image_prob").Number? ==>
              Get(ChooseFinalProb(m), "final_prob") == Number(Half(Add(Get(m, "text_prob").n, Get(m, "image_prob").n)))
    ensures !Get(m, "final_prob").Number? && Get(m, "text_prob").Number? && !Get(m, "image_prob").Number? ==>
              Get(ChooseFinalProb(m), "final_prob") == Get(m, "text_prob")
    ensures !Get(m, "final_prob").Number? && !Get(m, "text_prob").Number? ==>
              Get(ChooseFinalProb(m), "final_prob") == Real(0.0)
  {
  }

  /** Unlike the prediction route, normalisation does not clamp: 1.5 stays. */
  lemma NoClamping()
    ensures Get(Normalized(map["final_prob" := Real(1.5)]), "final_prob") == Real(1.5)
    ensures Get(Normalized(map["final_prob" := Real(1.5)]), "risk") == Str(Risk.High)
  {
    var m := map["final_prob" := Real(1.5)];
    var d := DeriveRisk(ChooseFinalProb(MapRisk(m)));
    assert d == map["final_prob" := Real(1.5), "risk" := Str(Risk.High)];
    assert (1.5 * 100.0 + 0.5).Floor == 150;
    assert Fixed2(Finite(1.5)) == Finite(1.5);
    assert RoundKey(d, "final_prob") == d;
    assert RoundKeys(d, RoundedKeys[..1]) == d;
    assert RoundKeys(d, RoundedKeys[..2]) == d;
    assert RoundedKeys[..3] == RoundedKeys;
  }

  /** An answer without probability or risk keys normalises to
      probability 0 and label "Low". */
  lemma NoProbabilityIsLow(m: map<string, Value>)
    requires "risk" !in m && "final_risk" !in m && "final_prob" !in m
    requires "text_prob" !in m && "image_prob" !in m
    ensures Get(Normalized(m), "final_prob") == Real(0.0)
    ensures Get(Normalized(m), "risk") == Str(Risk.Low)
  {
    assert MapRisk(m) == m;
    var c := m["final_prob" := Real(0.0)];
    assert ChooseFinalProb(m) == c;
    var d := c["risk" := Str(Risk.Low)];
    assert DeriveRisk(c) == d;
    ZeroNeedsNoRounding(d);
  }

  /** Rounding leaves a map alone whose `final_prob` is 0 and which has no
      text or image probability. */
  lemma ZeroNeedsNoRounding(d: map<string, Value>)
    requires "final_prob" in d && d["final_prob"] == Real(0.0)
    requires "text_prob" !in d && "image_prob" !in d
    ensures RoundKeys(d, RoundedKeys) == d
  {
    assert Fixed2(Finite(0.0)) == Finite(0.0);
    assert Rounded(d["final_prob"]) == d["final_prob"];
    assert RoundKey(d, "final_prob") == d;
    assert RoundKeys(d, RoundedKeys[..1]) == d;
    assert RoundedKeys[..2][..1] == RoundedKeys[..1];
    assert RoundKeys(d, RoundedKeys[..2]) == d;
    assert RoundedKeys[..3][..2] == RoundedKeys[..2];
    assert RoundKeys(d, RoundedKeys[..3]) == d;
    assert RoundedKeys[..3] == RoundedKeys;
  }

  /** The Python script prints no probability and no top-level risk, so its
      answer always normalises to probability 0 and label "Low", whatever
      its own `risk_level` says. */
  lemma PythonAnswerIsAlwaysLow(textPred: string, preds: seq<PythonPredict.ImagePrediction>)
    ensures var n := Normalized(PythonPredict.MainOutput(textPred, preds));
            Get(n, "final_prob") == Real(0.0) && Get(n, "risk") == Str(Risk.Low)
  {
    var m := PythonPredict.MainOutput(textPred, preds);
    assert m.Keys == {"text_prediction", "image_predictions", "final_decision"};
    NoProbabilityIsLow(m);
  }

  /** Through the whole pipeline, the prediction route then stores "Low"
      with probability 0 for every answer of the Python script. */
  lemma PipelineStoresLow(textPred: string, preds: seq<PythonPredict.ImagePrediction>)
    ensures var raw := Normalized(PythonPredict.MainOutput(textPred, preds));
            PredictRoute.FinalProbability(raw) == Finite(0.0) &&
            PredictRoute.RiskLabel(raw, PredictRoute.FinalProbability(raw)) == Str(Risk.Low)
  {
    PythonAnswerIsAlwaysLow(textPred, preds);
    var raw := Normalized(PythonPredict.MainOutput(textPred, preds));
    assert Get(raw, "final_prob") == Real(0.0);
  }
}
