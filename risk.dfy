/**
 * The decision rule that turns the classifier's positive-class probability
 * into a risk label, and the scoring path from a form submission to a
 * verdict.
 *
 * The trained classifier is a foreign capability: it appears here only as a
 * function from a feature row to a probability, passed in by the caller.
 */
module Risk {
  import opened Patient
  import opened Encoder

  datatype RiskLabel = LowRisk | HighRisk

  /** The fixed policy cut-off; a probability must exceed it to be high risk. */
  const Threshold: real := 0.3

  /** The label for a positive-class probability `p`. */
  function Classify(p: real): (l: RiskLabel)
    ensures l == HighRisk <==> p > Threshold
    ensures l == LowRisk <==> p <= Threshold
  {
    if p > Threshold then HighRisk else LowRisk
  }

  /** The text shown for a label. */
  function LabelText(l: RiskLabel): (t: string)
    ensures t == "High Risk" <==> l == HighRisk
    ensures t == "Low Risk" <==> l == LowRisk
  {
    match l
    case HighRisk => "High Risk"
    case LowRisk => "Low Risk"
  }

  /** The cut-off itself is low risk: the comparison is strict. */
  lemma ThresholdIsLowRisk()
    ensures Classify(0.3) == LowRisk
    ensures LabelText(Classify(0.3)) == "Low Risk"
  {
  }

  /** A higher probability never gives a lower label. */
  lemma ClassifyMonotone(p: real, q: real)
    requires p <= q
    ensures Classify(p) == HighRisk ==> Classify(q) == HighRisk
    ensures Classify(q) == LowRisk ==> Classify(p) == LowRisk
  {
  }

  /** What one submission produces: the probability and its label. */
  datatype Verdict = Verdict(probability: real, risk: RiskLabel)

  /**
   * Scores one submission: encodes the record, asks the classifier for the
   * positive-class probability of that row, and labels the probability.
   * Nothing is assumed about the classifier's output range.
   */
  function Assess(r: RawRecord, predictProba: seq<real> -> real): (v: Verdict)
    ensures v.probability == predictProba(Encode(r))
    ensures v.risk == HighRisk <==> predictProba(Encode(r)) > Threshold
  {
    var p := predictProba(Encode(r));
    Verdict(p, Classify(p))
  }
}
