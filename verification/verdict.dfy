/** The classifier verdict derived from the model's probability, and the
    checkbox-count heuristic of the predict handlers. */
module Verdict {
  import opened Wrappers
  import opened Form

  /** The verdict shown to the user. */
  datatype Label = Fake | Real

  /** The confidence percentage, the complement of `p` scaled to 100: recovers `p`, and stays within
      0..100 for a probability. */
  function Confidence(p: real): (c: real)
    ensures p == 1.0 - c / 100.0
    ensures 0.0 <= p <= 1.0 ==> 0.0 <= c <= 100.0
  {
    (1.0 - p) * 100.0
  }

  /** The label, Fake from one half upwards: Fake exactly when the confidence is at
      most 50. */
  function PredictionLabel(p: real): (l: Label)
    ensures l == Fake <==> p >= 0.5
    ensures l == Fake <==> Confidence(p) <= 50.0
  {
    if p >= 0.5 then Fake else Real
  }

  /** Probabilities below one half are Real with confidence above 50; from one
      half to one they are Fake with confidence in 0..50. */
  lemma LabelBands(p: real)
    ensures 0.0 <= p < 0.5 ==> PredictionLabel(p) == Real && 50.0 < Confidence(p) <= 100.0
    ensures 0.5 <= p <= 1.0 ==> PredictionLabel(p) == Fake && 0.0 <= Confidence(p) <= 50.0
  {
  }

  /** The label is monotone in the probability. */
  lemma LabelMonotone(p: real, q: real)
    requires p <= q
    ensures PredictionLabel(p) == Fake ==> PredictionLabel(q) == Fake
  {
  }

  /** The number of ticked checkboxes: the reasons, plus one for a filled free text. */
  function CheckboxCount(reasons: seq<string>, others: Option<string>): (n: nat)
    ensures |reasons| <= n <= |reasons| + 1
    ensures n == |reasons| + 1 <==> Filled(others)
  {
    |reasons| + (if Filled(others) then 1 else 0)
  }

  const AnalysisPrefix: string := "Behavioral Analysis: "
  const SuspiciousAnalysis: string := AnalysisPrefix + "The user exhibits suspicious behavior."
  const NormalAnalysis: string := AnalysisPrefix + "The user's behavior seems normal."

  /** The checkbox analysis text: the suspicious text exactly when at least six
      checkboxes are ticked, the normal text otherwise. */
  function BehavioralAnalysis(reasons: seq<string>, others: Option<string>): (text: string)
    ensures text == SuspiciousAnalysis <==> |reasons| >= 6 || (|reasons| == 5 && Filled(others))
    ensures text == SuspiciousAnalysis || text == NormalAnalysis
    ensures text[..|AnalysisPrefix|] == AnalysisPrefix
  {
    assert SuspiciousAnalysis != NormalAnalysis by {
      assert SuspiciousAnalysis[|AnalysisPrefix| + 8] != NormalAnalysis[|AnalysisPrefix| + 8];
    }
    if CheckboxCount(reasons, others) > 5 then SuspiciousAnalysis else NormalAnalysis
  }

  /** Ticking one more reason never turns a suspicious analysis back to normal. */
  lemma AnalysisMonotoneInReasons(reasons: seq<string>, others: Option<string>, extra: string)
    requires BehavioralAnalysis(reasons, others) == SuspiciousAnalysis
    ensures BehavioralAnalysis(reasons + [extra], others) == SuspiciousAnalysis
  {
  }

  /** Filling in the free-text field never turns a suspicious analysis back to normal. */
  lemma AnalysisMonotoneInOthers(reasons: seq<string>, others: Option<string>, text: string)
    requires BehavioralAnalysis(reasons, others) == SuspiciousAnalysis
    requires text != ""
    ensures BehavioralAnalysis(reasons, Some(text)) == SuspiciousAnalysis
  {
  }
}
