/** The three `predict` handlers, composed from the pieces above. The fetched
    profile (absent when the account does not exist) and the trained model are
    inputs: `infer` maps the feature vector to the model's single output probability. */
module Handlers {
  import opened Wrappers
  import opened Form
  import opened Tables
  import opened Features
  import opened Suspicion
  import opened Verdict
  import opened Behavior

  /** What a handler answers with: a redirect to the result page carrying its
      query parameters, the result page for a missing profile, or the result
      page reporting a caught exception. */
  datatype Response =
    | SuspicionRedirect(username: string, confidence: real, level: string, messages: map<string, string>)
    | VerdictRedirect(username: string, verdict: Label, confidence: real, behavior: string)
    | ProfileNotFound
    | ErrorPage(error: PyError)

  /** The probability the model assigns to a fetched profile. */
  function Probability(profile: Profile, infer: seq<int> -> real): real {
    infer(ToVector(GetInstagramData(profile)))
  }

  /** The model sees only the eight features: two profiles with the same
      feature record get the same probability, whatever else differs (the
      username's letters, the biography's text, the picture URL). */
  lemma ProbabilityDependsOnFeatures(a: Profile, b: Profile, infer: seq<int> -> real)
    requires GetInstagramData(a) == GetInstagramData(b)
    ensures Probability(a, infer) == Probability(b, infer)
  {
  }

  /** An example of that: two usernames of equal length and digit count are
      classified alike. */
  lemma SameShapeUsernamesClassifiedAlike(prof: Profile, infer: seq<int> -> real)
    ensures Probability(prof.(username := "ab12"), infer) == Probability(prof.(username := "x9y0"), infer)
  {
    assert DigitCount("ab12") == 2 == DigitCount("x9y0");
    ProbabilityDependsOnFeatures(prof.(username := "ab12"), prof.(username := "x9y0"), infer);
  }

  /** The `app2.py` handler: confidence, suspicion level and the message
      dictionary; an empty selection raises inside `max` and ends on the
      error page. */
  function PredictWithLevel(form: Submission, profile: Option<Profile>, infer: seq<int> -> real): (resp: Response)
    ensures resp == ProfileNotFound <==> profile.None?
    ensures resp == ErrorPage(ValueError) <==> profile.Some? && |form.reasons| == 0
    ensures profile.Some? && |form.reasons| > 0 ==> resp.SuspicionRedirect?
    ensures resp.SuspicionRedirect? ==>
      && resp.username == form.username
      && resp.confidence == Confidence(Probability(profile.value, infer))
      && DetermineLevelOfSuspicion(form.reasons) == Success(resp.level)
      && resp.messages == BehaviorMessages(form.reasons)
      && resp.messages.Keys == set r | r in form.reasons && r in Whitelist
  {
    match profile
    case None => ProfileNotFound
    case Some(prof) =>
      var p := Probability(prof, infer);
      match DetermineLevelOfSuspicion(form.reasons)
      case Failure(e) => ErrorPage(e)
      case Success(level) =>
        SuspicionRedirect(form.username, Confidence(p), level, BehaviorMessages(form.reasons))
  }

  /** The `see.py` handler, with the total behaviour selection: every found
      profile gets a redirect whose verdict and confidence come from the
      model's probability, and it never reaches the error page. */
  function PredictTotal(form: Submission, profile: Option<Profile>, infer: seq<int> -> real): (resp: Response)
    ensures resp == ProfileNotFound <==> profile.None?
    ensures !resp.ErrorPage? && !resp.SuspicionRedirect?
    ensures profile.Some? ==> resp.VerdictRedirect?
    ensures resp.VerdictRedirect? ==>
      var p := Probability(profile.value, infer);
      && resp.username == form.username
      && resp.confidence == Confidence(p)
      && (resp.verdict == Fake <==> p >= 0.5)
      && (resp.verdict == Fake <==> resp.confidence <= 50.0)
      && (Filled(form.others) ==> resp.behavior == form.others.value)
      && (!Filled(form.others) ==> resp.behavior in MessageTexts)
      && (!Filled(form.others) && |form.reasons| > 0 ==> resp.behavior == BehaviorOrDefault(form.reasons[0]))
      && (!Filled(form.others) && |form.reasons| == 0 ==> resp.behavior == SuspiciousBehaviour)
  {
    match profile
    case None => ProfileNotFound
    case Some(prof) =>
      var p := Probability(prof, infer);
      VerdictRedirect(form.username, PredictionLabel(p), Confidence(p),
                      SelectBehavior(form.reasons, form.others))
  }

  /** The `app3.py` handler, with the single conditional expression: it fails
      with `IndexError` exactly when a profile was found but neither a free
      text nor a reason was submitted, and otherwise answers what the `see.py`
      handler answers. */
  function PredictStrict(form: Submission, profile: Option<Profile>, infer: seq<int> -> real): (resp: Response)
    ensures resp.ErrorPage? <==> profile.Some? && !Filled(form.others) && |form.reasons| == 0
    ensures resp.ErrorPage? ==> resp.error == IndexError
    ensures !resp.ErrorPage? ==> resp == PredictTotal(form, profile, infer)
  {
    match profile
    case None => ProfileNotFound
    case Some(prof) =>
      var p := Probability(prof, infer);
      match SelectBehaviorStrict(form.reasons, form.others)
      case Failure(e) => ErrorPage(e)
      case Success(behavior) =>
        VerdictRedirect(form.username, PredictionLabel(p), Confidence(p), behavior)
  }

  /** The worked example: probability 0.2 and the single reason `otp` give a Real
      verdict with confidence 80 and the `otp` message. */
  lemma OtpExample(prof: Profile, infer: seq<int> -> real)
    requires Probability(prof, infer) == 0.2
    ensures PredictTotal(Submission("someone", ["otp"], None), Some(prof), infer)
      == VerdictRedirect("someone", Real, 80.0, "Very highly suspicious behavior.")
  {
    BehaviorMessageOfEachCode();
  }
}
