/** The behaviour message chosen by the predict handlers of `app3.py` (a
    single conditional expression) and of `see.py` (an if/elif/else chain). */
module Behavior {
  import opened Wrappers
  import opened Form
  import opened Tables

  /** The if/elif/else selection: the free text when given, else the message of
      the first reason, else the default. Never fails. */
  function SelectBehavior(reasons: seq<string>, others: Option<string>): (b: string)
    ensures Filled(others) ==> b == others.value
    ensures !Filled(others) ==> b in MessageTexts
    ensures !Filled(others) && |reasons| > 0 ==> b == BehaviorOrDefault(reasons[0])
    ensures !Filled(others) && |reasons| == 0 ==> b == SuspiciousBehaviour
  {
    if Filled(others) then others.value
    else if |reasons| > 0 then BehaviorOrDefault(reasons[0])
    else SuspiciousBehaviour
  }

  /** The single conditional expression: the free text when given, else the
      lookup of the first reason; taking the first element of the empty list
      raises `IndexError` when there is no free text and no
      reason; wherever it succeeds it agrees with the total selection. */
  function SelectBehaviorStrict(reasons: seq<string>, others: Option<string>): (r: Result<string, PyError>)
    ensures r.Failure? <==> !Filled(others) && |reasons| == 0
    ensures r.Failure? ==> r.error == IndexError
    ensures r.Success? ==> r.value == SelectBehavior(reasons, others)
  {
    if Filled(others) then Success(others.value)
    else if |reasons| == 0 then Failure(IndexError)
    else Success(BehaviorOrDefault(reasons[0]))
  }

  /** The behaviour depends on the free text and the first reason only. */
  lemma BehaviorDependsOnFirstReason(a: seq<string>, b: seq<string>, others: Option<string>)
    requires |a| > 0 && |b| > 0 && a[0] == b[0]
    ensures SelectBehavior(a, others) == SelectBehavior(b, others)
  {
  }

  /** Once a reason or a free text is present, appending reasons never changes
      the behaviour. */
  lemma AppendingReasonsKeepsBehavior(reasons: seq<string>, more: seq<string>, others: Option<string>)
    requires |reasons| > 0 || Filled(others)
    ensures SelectBehavior(reasons + more, others) == SelectBehavior(reasons, others)
  {
    if |reasons| > 0 {
      assert (reasons + more)[0] == reasons[0];
    }
  }

  /** The behaviour of the ten codes without free text never carries the
      fallback text of `get_behavior_message`, and coincides with it. */
  lemma KnownFirstReasonUsesTable(reasons: seq<string>, others: Option<string>)
    requires |reasons| > 0 && reasons[0] in Whitelist && !Filled(others)
    ensures SelectBehavior(reasons, others) == GetBehaviorMessage(reasons[0])
    ensures SelectBehavior(reasons, others) != NormalBehaviour
  {
  }

  /** The worked examples of the behaviour selection. */
  lemma BehaviorExamples()
    ensures SelectBehavior(["otp"], None) == "Very highly suspicious behavior."
    ensures SelectBehavior([], Some("Sent me a phishing link")) == "Sent me a phishing link"
    ensures SelectBehavior([], None) == "Suspicious behavior."
    ensures SelectBehavior(["otp"], Some("")) == "Very highly suspicious behavior."
    ensures SelectBehaviorStrict([], None) == Failure(IndexError)
  {
    BehaviorMessageOfEachCode();
  }
}
