/** The probability thresholds the backend uses to label a prediction when
    the predictor gives no label: 0.7 and above is "High", 0.4 and above
    "Medium", anything else (NaN included) "Low". */
module Risk {
  import opened Js

  const High := "High"
  const Medium := "Medium"
  const Low := "Low"

  /** The labels the Prediction schema admits. */
  const SchemaLabels: set<string> := {Low, Medium, High}

  /** `p >= 0.7 ? "High" : p >= 0.4 ? "Medium" : "Low"`. */
  function Classify(p: Num): (level: string)
    ensures level in SchemaLabels
    ensures level == High <==> AtLeast(p, 0.7)
    ensures level == Medium <==> AtLeast(p, 0.4) && !AtLeast(p, 0.7)
    ensures level == Low <==> !AtLeast(p, 0.4)
  {
    if AtLeast(p, 0.7) then High else if AtLeast(p, 0.4) then Medium else Low
  }

  /** The order Low < Medium < High. */
  function Rank(level: string): nat {
    if level == High then 2 else if level == Medium then 1 else 0
  }

  /** A larger probability never gets a lower label. */
  lemma ClassifyMonotone(p: real, q: real)
    requires p <= q
    ensures Rank(Classify(Finite(p))) <= Rank(Classify(Finite(q)))
  {
  }

  /** The two boundaries belong to the upper bucket. */
  lemma Boundaries()
    ensures Classify(Finite(0.4)) == Medium && Classify(Finite(0.7)) == High
    ensures Classify(NaN) == Low
  {
  }
}
