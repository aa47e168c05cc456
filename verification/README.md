# Fake-account report heuristics

A model of the decision logic of a small web front-end that estimates whether a
social-media account is fake. The front-end fetches the profile, turns it into
an eight-field feature vector, asks a trained classifier for the probability
`p` that the account is fake, and combines `p` with the reason checkboxes
and the free-text reason a user ticked on the report form. The logic sits in
three near-duplicate `predict` handlers:

- `app2.py` computes the confidence `(1 - p) * 100`, the suspicion level
  (the most frequent level among the selected reasons) and a
  reason-to-message dictionary.
- `app3.py` computes the Fake/Real label, the confidence, a checkbox-count
  analysis and one behaviour message, chosen by a single conditional
  expression that raises `IndexError` when the form carries neither a free
  text nor a reason.
- `see.py` is the same handler with an if/elif/else chain that falls back to
  `'Suspicious behavior.'`, so it never fails.

Modules:

- `Wrappers` holds `Option`, `Result` and the two Python exceptions the logic
  can raise.
- `Form` holds the submitted form and Python truthiness of `others`.
- `Tables` holds the three dictionary literals and their lookups.
- `Suspicion` holds `determine_level_of_suspicion` and the message
  dictionary.
- `Verdict` holds the label, the confidence and the checkbox heuristic.
- `Behavior` holds the two behaviour selections.
- `Features` holds the profile record and its feature vector.
- `Handlers` composes the pieces into the three handlers.

The profile fetch and the classifier are inputs. The profile is an
`Option<Profile>`, absent when the account does not exist. The classifier is a
function from the feature vector to a `real`. Probabilities and confidences
are idealised as `real`.

Python's `max(xs, key=xs.count)` replaces its candidate only when a later key
is strictly greater. So among the levels tied for the highest count, the one
occurring first wins. `Suspicion.MaxByKeyFrom` models that scan over the list of keys.
`Suspicion.IsFirstMode` is the independent declarative definition of this
"first mode": an element of the list that no element outnumbers, such that every
element before its first occurrence is strictly rarer.
`Suspicion.LevelIsFirstMode` proves that the two agree in both directions.

The code's behaviour at its edges, as the model states it:

- An empty selection makes `determine_level_of_suspicion` raise `ValueError`
  inside `max`, and the `app2.py` handler renders its error page.
- The behaviour expression in `app3.py` raises `IndexError` on a form with
  neither a free text nor a reason, and that handler renders its error page.
  Only the `see.py` selection is total.
- The semantics of `max` fix the tie-break as the first maximal element.
- The fallback of `get_behavior_message` is the literal `'Normal behavious'`,
  typo included.
- The `reasons_to_behaviors` lookup falls back to `'Suspicious behavior.'`.

## Model

| member | source | states |
|---|---|---|
| Tables.TablesShareKeys | SPARKLES-SIH-2023-master/app3.py:15-26 | the whitelist has ten codes; each of the three tables is keyed by exactly those codes; the two behaviour tables are equal |
| Tables.BehaviorTableValues | SPARKLES-SIH-2023-master/app2.py:97-109 | the behaviour table's values are exactly the four message texts, and `'Normal behavious'` is not among them |
| Tables.SuspicionTableValues | SPARKLES-SIH-2023-master/app2.py:114-128 | the suspicion table's values are exactly the five level texts, and `'Normal'` is not among them |
| Tables.GetBehaviorMessage | SPARKLES-SIH-2023-master/app2.py:95-109 | the result is `'Normal behavious'` iff the code is outside the ten; otherwise it is the entry of the other handler file's table |
| Tables.BehaviorOrDefault | SPARKLES-SIH-2023-master/app3.py:122 | always a table text; equals `get_behavior_message` on the ten codes; `'Suspicious behavior.'` otherwise |
| Tables.LevelOf | SPARKLES-SIH-2023-master/app2.py:114-128 | the level is `'Normal'` iff the code is outside the ten; otherwise one of the five level texts |
| Tables.LookupsDifferOnlyOnUnknown | SPARKLES-SIH-2023-master/app2.py:109 | the two behaviour lookups agree iff the code is one of the ten |
| Tables.BehaviorMessageOfEachCode | SPARKLES-SIH-2023-master/app2.py:97-108 | each of the ten codes with its message, e.g. `otp` gives `'Very highly suspicious behavior.'` |
| Tables.LevelOfEachCode | SPARKLES-SIH-2023-master/app2.py:114-125 | each of the ten codes with its suspicion level |
| Suspicion.SuspicionLevels | SPARKLES-SIH-2023-master/app2.py:128 | the mapped list has the length of the selection |
| Suspicion.SuspicionLevelsPointwise | SPARKLES-SIH-2023-master/app2.py:128 | each entry of the mapped list is the level of the code at the same position, so the order is kept |
| Suspicion.SuspicionLevelsAppend | SPARKLES-SIH-2023-master/app2.py:128 | mapping a concatenation gives the concatenation of the mapped parts |
| Suspicion.Count | SPARKLES-SIH-2023-master/app2.py:131 | `list.count` never exceeds the list's length |
| Suspicion.CountOfAbsent | SPARKLES-SIH-2023-master/app2.py:131 | an element absent from the list has count zero |
| Suspicion.CountIsMultiplicity | SPARKLES-SIH-2023-master/app2.py:131 | `list.count(x)` is the multiplicity of `x` in the list's multiset |
| Suspicion.FirstIndex | SPARKLES-SIH-2023-master/app2.py:131 | the position of the first occurrence of an element: it holds the element and no earlier position does |
| Suspicion.FirstModeUnique | SPARKLES-SIH-2023-master/app2.py:131 | at most one element is the first mode of a list |
| Suspicion.MaxByKeyFrom | SPARKLES-SIH-2023-master/app2.py:131 | the scan of `max` with a key ends on a position whose key no key exceeds, and every earlier key is strictly smaller |
| Suspicion.MaxByCount | SPARKLES-SIH-2023-master/app2.py:131 | the position `max` stops on lies inside the list |
| Suspicion.MaxByCountIsFirstMode | SPARKLES-SIH-2023-master/app2.py:131 | the element the scan selects is the first mode |
| Suspicion.MaxByCountIffFirstMode | SPARKLES-SIH-2023-master/app2.py:131 | the scan selects an element iff that element is the first mode |
| Suspicion.FirstModeOutnumbersAll | SPARKLES-SIH-2023-master/app2.py:131 | nothing, present in the list or not, occurs more often than the first mode |
| Suspicion.DetermineLevelOfSuspicion | SPARKLES-SIH-2023-master/app2.py:112-131 | fails with `ValueError` iff the selection is empty, and succeeds iff it is non-empty; a result is a level of the mapped list, one of the five texts or `'Normal'` |
| Suspicion.LevelIsFirstMode | SPARKLES-SIH-2023-master/app2.py:128-131 | the result is `level` iff the selection is non-empty and `level` is the first mode of the mapped list |
| Suspicion.NoLevelOutnumbersResult | SPARKLES-SIH-2023-master/app2.py:131 | no level occurs strictly more often in the mapped list than the returned one |
| Suspicion.MajorityExample | SPARKLES-SIH-2023-master/app2.py:128-131 | `spamMessages, otp, otp` gives `'Very Highly Suspicious'` |
| Suspicion.TiedScan | SPARKLES-SIH-2023-master/app2.py:131 | on the level list `Abnormal, Very Highly Suspicious, Abnormal, Very Highly Suspicious` the scan stops on position 0 |
| Suspicion.TieBreakExample | SPARKLES-SIH-2023-master/app2.py:131 | a two-against-two tie between `Abnormal` and `Very Highly Suspicious` goes to `Abnormal`, which occurs first |
| Suspicion.UnknownCodeExample | SPARKLES-SIH-2023-master/app2.py:128 | a code outside the table counts as `'Normal'` |
| Suspicion.BehaviorMessages | SPARKLES-SIH-2023-master/app2.py:85 | the dictionary's keys are exactly the selected codes that lie in the whitelist, each mapped to its `get_behavior_message` |
| Suspicion.BehaviorMessagesAreTableTexts | SPARKLES-SIH-2023-master/app2.py:85 | every value of the dictionary is a table message, never the fallback text |
| Verdict.Confidence | SPARKLES-SIH-2023-master/app3.py:119 | `p` is recovered as `1 - c/100`; for `p` in [0,1] the confidence is in [0,100] |
| Verdict.PredictionLabel | SPARKLES-SIH-2023-master/app3.py:118 | `Fake` iff `p >= 0.5`, and iff the confidence is at most 50 |
| Verdict.LabelBands | SPARKLES-SIH-2023-master/see.py:32-33 | `p` in [0,0.5) gives `Real` with confidence in (50,100]; `p` in [0.5,1] gives `Fake` with confidence in [0,50] |
| Verdict.LabelMonotone | SPARKLES-SIH-2023-master/see.py:32 | raising the probability never turns `Fake` into `Real` |
| Verdict.CheckboxCount | SPARKLES-SIH-2023-master/app3.py:108 | the count is the number of reasons, plus one exactly when the free text is filled in |
| Verdict.BehavioralAnalysis | SPARKLES-SIH-2023-master/app3.py:111-115 | the suspicious text iff at least six boxes are ticked counting the free text; otherwise the normal text; both start with the common prefix |
| Verdict.AnalysisMonotoneInReasons | SPARKLES-SIH-2023-master/see.py:22-29 | ticking one more reason never turns a suspicious analysis back to normal |
| Verdict.AnalysisMonotoneInOthers | SPARKLES-SIH-2023-master/see.py:22-26 | filling in the free text never turns a suspicious analysis back to normal |
| Behavior.SelectBehavior | SPARKLES-SIH-2023-master/see.py:36-41 | a filled free text is returned verbatim; otherwise the first reason's table lookup; with no reason `'Suspicious behavior.'`; without free text always a table text |
| Behavior.SelectBehaviorStrict | SPARKLES-SIH-2023-master/app3.py:122 | fails with `IndexError` iff there is neither free text nor reason; wherever it succeeds it equals the total selection |
| Behavior.BehaviorDependsOnFirstReason | SPARKLES-SIH-2023-master/see.py:38-39 | two selections with the same first reason give the same behaviour |
| Behavior.AppendingReasonsKeepsBehavior | SPARKLES-SIH-2023-master/see.py:36-39 | once a reason or a free text is present, appending reasons never changes the behaviour |
| Behavior.KnownFirstReasonUsesTable | SPARKLES-SIH-2023-master/see.py:39 | without free text a known first reason gives its `get_behavior_message`, never `'Normal behavious'` |
| Behavior.BehaviorExamples | SPARKLES-SIH-2023-master/see.py:36-41 | `otp` gives its message; a free text passes through verbatim; an empty form gives the default, or `IndexError` in the strict variant |
| Features.DigitCount | SPARKLES-SIH-2023-master/app2.py:20 | the digit count is at most the length, and equals it iff every character is a digit |
| Features.DigitCountAppend | SPARKLES-SIH-2023-master/app2.py:20 | the digit count of a concatenation is the sum of the parts' counts |
| Features.GetInstagramData | SPARKLES-SIH-2023-master/app2.py:13-22 | the follower, following and media counts, the biography and username lengths and the username's digit count are copied from the profile; has-picture iff public with a picture URL; private flag iff private; so the record is well formed: both flags 0/1, has-picture implies public, digits at most the length |
| Features.FromVector | SPARKLES-SIH-2023-master/app2.py:13-22 | the inverse of the vector assembly, used only to state its round trip: a vector reads back as a record iff it has eight non-negative entries |
| Features.ToVector | SPARKLES-SIH-2023-master/app2.py:73 | the vector of the feature dictionary's values has eight entries, and reading it back gives the record, so each field keeps its own position |
| Features.VectorRoundTripBack | SPARKLES-SIH-2023-master/app2.py:73 | a vector that reads back as a record is that record's vector |
| Features.ProfileVectorShape | SPARKLES-SIH-2023-master/app3.py:44-53 | a profile's vector has eight entries; both flags are 0/1 and not both 1; the digit count is at most the username length |
| Handlers.PredictWithLevel | SPARKLES-SIH-2023-master/app2.py:61-93 | the not-found page iff no profile; the error page iff a profile and an empty selection; a redirect for a profile and a non-empty selection, carrying the confidence of the model's probability, the first mode of the mapped levels and the `behavior_messages` dictionary |
| Handlers.PredictTotal | SPARKLES-SIH-2023-master/see.py:4-48 | the not-found page iff no profile, a redirect for every found profile, never an error page; the redirect's confidence is `(1-p)*100` and its label `Fake` iff `p >= 0.5` for the model's probability `p`; the behaviour is the filled free text, else the first reason's table text, else `'Suspicious behavior.'` |
| Handlers.ProbabilityDependsOnFeatures | SPARKLES-SIH-2023-master/app2.py:73-76 | two profiles with the same feature record get the same probability from the model |
| Handlers.SameShapeUsernamesClassifiedAlike | SPARKLES-SIH-2023-master/app2.py:20-21 | usernames of equal length and digit count, such as `ab12` and `x9y0`, are classified alike |
| Handlers.PredictStrict | SPARKLES-SIH-2023-master/app3.py:90-134 | the error page with `IndexError` iff a profile was found with neither free text nor reason; every other answer equals the total handler's |
| Handlers.OtpExample | SPARKLES-SIH-2023-master/see.py:32-39 | probability 0.2 with the single reason `otp` gives `Real` with confidence 80 and the `otp` message |

## Left out

- HTTP routing, templates, redirects and query-string encoding are not modelled, because they are I/O plumbing. This includes the `float('N/A')` parse in `/result` and the lookup of a missing `username` form field. A redirect or page is a `Response` value carrying the parameters the handler passes.
- The error page's text `str(e)` is not modelled, because its wording depends on the Python version. The page carries the exception kind.
- The database row and commit of `app3.py` are not modelled, because they are persistence.
- Profile fetching through the scraping library is not modelled, because it is network I/O. The fetched profile is an input, `None` when the account does not exist.
- The classifier is an input function from the feature vector to the probability, because it is an opaque foreign call. Model loading is left out.
- `np.float32` conversion and IEEE rounding are not modelled: probabilities and confidences are exact reals, and out-of-range probabilities propagate as in the code.
- Features.DigitCount: counts only the ASCII digits `0`-`9`, whereas Python's `str.isdigit` also accepts other Unicode digits.
- The checkbox analysis text is computed by the `app3.py` and `see.py` handlers but never forwarded. It is modelled as `Verdict.BehavioralAnalysis` and does not appear in their `Response`.
- The `others` field read by the `app2.py` handler is unused there, and the model ignores it too.
