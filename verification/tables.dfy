/** The static lookup tables of the handlers: reason code -> behaviour message
    (defined twice, in `app2.py` and in `app3.py`) and reason code -> suspicion level. */
module Tables {

  /** The ten reason codes of the report form: the whitelist that filters the
      `behavior_messages` comprehension, and the keys of every table. */
  const Whitelist: set<string> :=
    {"spamMessages", "linkSpamming", "identityFraud", "contenttheft", "jobscam",
     "fakenews", "adfraud", "bankAccount", "otp", "others"}

  /** The four distinct texts the behaviour tables can produce. */
  const MessageTexts: set<string> :=
    {"Suspicious behavior.", "Highly Abnormal behavior.",
     "Highly Suspicious behavior.", "Very highly suspicious behavior."}

  /** The five distinct levels the suspicion table can produce. */
  const LevelTexts: set<string> :=
    {"Less", "Abnormal", "Highly Suspicious", "Suspicious", "Very Highly Suspicious"}

  /** The fallback of `get_behavior_message`, spelled as in the handler. */
  const NormalBehaviour: string := "Normal behavious"

  /** The fallback of the behaviour lookup in `app3.py`, and the
      default behaviour of the total selection. */
  const SuspiciousBehaviour: string := "Suspicious behavior."

  /** The fallback of the suspicion lookup. */
  const NormalLevel: string := "Normal"

  /** `behavior_mapping`, local to `get_behavior_message`. */
  const BehaviorMapping: map<string, string> := map[
    "spamMessages" := "Suspicious behavior.",
    "linkSpamming" := "Highly Abnormal behavior.",
    "identityFraud" := "Highly Suspicious behavior.",
    "contenttheft" := "Highly Suspicious behavior.",
    "jobscam" := "Suspicious behavior.",
    "fakenews" := "Highly Suspicious behavior.",
    "adfraud" := "Suspicious behavior.",
    "bankAccount" := "Very highly suspicious behavior.",
    "otp" := "Very highly suspicious behavior.",
    "others" := "Suspicious behavior."
  ]

  /** The module-level `reasons_to_behaviors` table of `app3.py`. */
  const ReasonsToBehaviors: map<string, string> := map[
    "spamMessages" := "Suspicious behavior.",
    "linkSpamming" := "Highly Abnormal behavior.",
    "identityFraud" := "Highly Suspicious behavior.",
    "contenttheft" := "Highly Suspicious behavior.",
    "jobscam" := "Suspicious behavior.",
    "fakenews" := "Highly Suspicious behavior.",
    "adfraud" := "Suspicious behavior.",
    "bankAccount" := "Very highly suspicious behavior.",
    "otp" := "Very highly suspicious behavior.",
    "others" := "Suspicious behavior."
  ]

  /** `suspicion_mapping`, local to `determine_level_of_suspicion`. */
  const SuspicionMapping: map<string, string> := map[
    "spamMessages" := "Less",
    "linkSpamming" := "Abnormal",
    "identityFraud" := "Highly Suspicious",
    "contenttheft" := "Highly Suspicious",
    "jobscam" := "Abnormal",
    "fakenews" := "Suspicious",
    "adfraud" := "Abnormal",
    "bankAccount" := "Very Highly Suspicious",
    "otp" := "Very Highly Suspicious",
    "others" := "Suspicious"
  ]

  /** Python's `dict.get` with a default. */
  function GetOr<K, V>(m: map<K, V>, key: K, default: V): V {
    if key in m then m[key] else default
  }

  /** The whitelist holds ten codes, and each table is keyed by exactly
      those codes; the two behaviour tables are the same table. */
  lemma TablesShareKeys()
    ensures |Whitelist| == 10
    ensures BehaviorMapping.Keys == Whitelist
    ensures ReasonsToBehaviors.Keys == Whitelist
    ensures SuspicionMapping.Keys == Whitelist
    ensures ReasonsToBehaviors == BehaviorMapping
  {
  }

  /** The image of the behaviour table is the four message texts, none of
      which is the fallback of `get_behavior_message`. */
  lemma BehaviorTableValues()
    ensures BehaviorMapping.Values == MessageTexts
    ensures NormalBehaviour !in MessageTexts
    ensures SuspiciousBehaviour in MessageTexts
  {
    forall v | v in BehaviorMapping.Values ensures v in MessageTexts {
      var k :| k in BehaviorMapping && BehaviorMapping[k] == v;
    }
    assert BehaviorMapping["spamMessages"] in BehaviorMapping.Values;
    assert BehaviorMapping["linkSpamming"] in BehaviorMapping.Values;
    assert BehaviorMapping["identityFraud"] in BehaviorMapping.Values;
    assert BehaviorMapping["otp"] in BehaviorMapping.Values;
  }

  /** The image of the suspicion table is the five level texts, none of which
      is the fallback `'Normal'`. */
  lemma SuspicionTableValues()
    ensures SuspicionMapping.Values == LevelTexts
    ensures NormalLevel !in LevelTexts
  {
    forall v | v in SuspicionMapping.Values ensures v in LevelTexts {
      var k :| k in SuspicionMapping && SuspicionMapping[k] == v;
    }
    assert SuspicionMapping["spamMessages"] in SuspicionMapping.Values;
    assert SuspicionMapping["linkSpamming"] in SuspicionMapping.Values;
    assert SuspicionMapping["identityFraud"] in SuspicionMapping.Values;
    assert SuspicionMapping["fakenews"] in SuspicionMapping.Values;
    assert SuspicionMapping["otp"] in SuspicionMapping.Values;
  }

  /** `get_behavior_message`: the table message, `'Normal behavious'`
      for a code outside the table. */
  function GetBehaviorMessage(reason: string): (msg: string)
    ensures msg == NormalBehaviour <==> reason !in Whitelist
    ensures reason in Whitelist ==> msg == ReasonsToBehaviors[reason] && msg in MessageTexts
  {
    TablesShareKeys();
    BehaviorTableValues();
    GetOr(BehaviorMapping, reason, NormalBehaviour)
  }

  /** The lookup in `reasons_to_behaviors` falling back to `'Suspicious behavior.'`: agrees with
      `get_behavior_message` on the ten codes and always yields a table text. */
  function BehaviorOrDefault(reason: string): (msg: string)
    ensures msg in MessageTexts
    ensures reason in Whitelist ==> msg == GetBehaviorMessage(reason)
    ensures reason !in Whitelist ==> msg == SuspiciousBehaviour
  {
    TablesShareKeys();
    BehaviorTableValues();
    GetOr(ReasonsToBehaviors, reason, SuspiciousBehaviour)
  }

  /** The level of one code: its entry in `suspicion_mapping`, `'Normal'` when absent. */
  function LevelOf(reason: string): (level: string)
    ensures level == NormalLevel <==> reason !in Whitelist
    ensures reason in Whitelist ==> level in LevelTexts
  {
    TablesShareKeys();
    SuspicionTableValues();
    GetOr(SuspicionMapping, reason, NormalLevel)
  }

  /** The two behaviour lookups differ exactly on the codes outside the table. */
  lemma LookupsDifferOnlyOnUnknown(reason: string)
    ensures GetBehaviorMessage(reason) == BehaviorOrDefault(reason) <==> reason in Whitelist
  {
  }

  /** Each of the ten codes with its message, as listed in the handler. */
  lemma BehaviorMessageOfEachCode()
    ensures GetBehaviorMessage("spamMessages") == "Suspicious behavior."
    ensures GetBehaviorMessage("linkSpamming") == "Highly Abnormal behavior."
    ensures GetBehaviorMessage("identityFraud") == "Highly Suspicious behavior."
    ensures GetBehaviorMessage("contenttheft") == "Highly Suspicious behavior."
    ensures GetBehaviorMessage("jobscam") == "Suspicious behavior."
    ensures GetBehaviorMessage("fakenews") == "Highly Suspicious behavior."
    ensures GetBehaviorMessage("adfraud") == "Suspicious behavior."
    ensures GetBehaviorMessage("bankAccount") == "Very highly suspicious behavior."
    ensures GetBehaviorMessage("otp") == "Very highly suspicious behavior."
    ensures GetBehaviorMessage("others") == "Suspicious behavior."
  {
  }

  /** Each of the ten codes with its suspicion level. */
  lemma LevelOfEachCode()
    ensures LevelOf("spamMessages") == "Less"
    ensures LevelOf("linkSpamming") == "Abnormal"
    ensures LevelOf("identityFraud") == "Highly Suspicious"
    ensures LevelOf("contenttheft") == "Highly Suspicious"
    ensures LevelOf("jobscam") == "Abnormal"
    ensures LevelOf("fakenews") == "Suspicious"
    ensures LevelOf("adfraud") == "Abnormal"
    ensures LevelOf("bankAccount") == "Very Highly Suspicious"
    ensures LevelOf("otp") == "Very Highly Suspicious"
    ensures LevelOf("others") == "Suspicious"
  {
  }
}
