/** `determine_level_of_suspicion` and the `behavior_messages` dictionary of
    `app2.py`. */
module Suspicion {
  import opened Wrappers
  import opened Tables

  /** The list comprehension mapping each selected code to its level. */
  function SuspicionLevels(reasons: seq<string>): (levels: seq<string>)
    ensures |levels| == |reasons|
  {
    if |reasons| == 0 then [] else [LevelOf(reasons[0])] + SuspicionLevels(reasons[1..])
  }

  /** The mapped list keeps the selection's order: each entry is the level of
      the code at the same position, so an unknown code yields `'Normal'` there. */
  lemma {:induction false} SuspicionLevelsPointwise(reasons: seq<string>)
    ensures forall i :: 0 <= i < |reasons| ==> SuspicionLevels(reasons)[i] == LevelOf(reasons[i])
  {
    if |reasons| > 0 {
      SuspicionLevelsPointwise(reasons[1..]);
      assert forall i :: 1 <= i < |reasons| ==> reasons[i] == reasons[1..][i - 1];
    }
  }

  /** Mapping a concatenation maps each part. */
  lemma {:induction false} SuspicionLevelsAppend(a: seq<string>, b: seq<string>)
    ensures SuspicionLevels(a + b) == SuspicionLevels(a) + SuspicionLevels(b)
  {
    if |a| == 0 {
      assert a + b == b;
    } else {
      assert (a + b)[1..] == a[1..] + b;
      SuspicionLevelsAppend(a[1..], b);
    }
  }

  /** The number of occurrences of `x`, as Python's `list.count`. */
  function Count(s: seq<string>, x: string): (n: nat)
    ensures n <= |s|
  {
    if |s| == 0 then 0 else (if s[0] == x then 1 else 0) + Count(s[1..], x)
  }

  /** `list.count` is the multiplicity of the element in the list's multiset. */
  lemma {:induction false} CountIsMultiplicity(s: seq<string>, x: string)
    ensures Count(s, x) == multiset(s)[x]
  {
    if |s| > 0 {
      assert s == [s[0]] + s[1..];
      assert multiset(s) == multiset([s[0]]) + multiset(s[1..]);
      CountIsMultiplicity(s[1..], x);
    }
  }

  /** The index of the first occurrence of `x`, as Python's `list.index`. */
  function FirstIndex(s: seq<string>, x: string): (k: nat)
    requires x in s
    ensures k < |s| && s[k] == x
    ensures forall j :: 0 <= j < k ==> s[j] != x
  {
    if s[0] == x then 0 else 1 + FirstIndex(s[1..], x)
  }

  /** `x` is what `max` keyed by the count returns: an element of `s` that no element
      of `s` outnumbers, and every element before its first occurrence is
      strictly less frequent. */
  ghost predicate IsFirstMode(s: seq<string>, x: string) {
    && x in s
    && (forall j :: 0 <= j < |s| ==> Count(s, s[j]) <= Count(s, x))
    && (forall j :: 0 <= j < FirstIndex(s, x) ==> Count(s, s[j]) < Count(s, x))
  }

  /** At most one element is the first mode. */
  lemma FirstModeUnique(s: seq<string>, x: string, y: string)
    requires IsFirstMode(s, x) && IsFirstMode(s, y)
    ensures x == y
  {
    var i, j := FirstIndex(s, x), FirstIndex(s, y);
    assert Count(s, s[i]) <= Count(s, y) && Count(s, s[j]) <= Count(s, x);
  }

  /** The keys `max` computes when keyed by the count, one per element. */
  function Counts(s: seq<string>): seq<nat> {
    seq(|s|, j requires 0 <= j < |s| => Count(s, s[j]))
  }

  /** The scan of Python's `max` with a key: `best` is the first position whose
      key was strictly greater than every key before it; positions from `i` on
      are still to be compared. The result is the first position of a maximal key. */
  function MaxByKeyFrom(keys: seq<int>, i: nat, best: nat): (k: nat)
    requires best < i <= |keys|
    requires forall j :: 0 <= j < i ==> keys[j] <= keys[best]
    requires forall j :: 0 <= j < best ==> keys[j] < keys[best]
    ensures k < |keys|
    ensures forall j :: 0 <= j < |keys| ==> keys[j] <= keys[k]
    ensures forall j :: 0 <= j < k ==> keys[j] < keys[k]
    decreases |keys| - i
  {
    if i == |keys| then best
    else if keys[i] > keys[best] then MaxByKeyFrom(keys, i + 1, i)
    else MaxByKeyFrom(keys, i + 1, best)
  }

  /** The position `max` stops on. */
  function MaxByCount(s: seq<string>): (k: nat)
    requires |s| > 0
    ensures k < |s|
  {
    MaxByKeyFrom(Counts(s), 1, 0)
  }

  /** The element the scan selects is the first mode. */
  lemma MaxByCountIsFirstMode(s: seq<string>)
    requires |s| > 0
    ensures IsFirstMode(s, s[MaxByCount(s)])
  {
    var k := MaxByCount(s);
    var keys := Counts(s);
    assert forall j :: 0 <= j < |s| ==> keys[j] == Count(s, s[j]);
    assert forall j :: 0 <= j < |s| ==> keys[j] <= keys[k];
    assert forall j :: 0 <= j < k ==> keys[j] < keys[k];
    assert FirstIndex(s, s[k]) == k;
  }

  /** The scan selects `x` exactly when `x` is the first mode. */
  lemma MaxByCountIffFirstMode(s: seq<string>, x: string)
    requires |s| > 0
    ensures s[MaxByCount(s)] == x <==> IsFirstMode(s, x)
  {
    MaxByCountIsFirstMode(s);
    if IsFirstMode(s, x) {
      FirstModeUnique(s, s[MaxByCount(s)], x);
    }
  }

  /** An element absent from the list has count zero. */
  lemma {:induction false} CountOfAbsent(s: seq<string>, x: string)
    requires x !in s
    ensures Count(s, x) == 0
  {
    if |s| > 0 {
      assert s[0] != x;
      CountOfAbsent(s[1..], x);
    }
  }

  /** Nothing, present in the list or not, occurs more often than the first mode. */
  lemma FirstModeOutnumbersAll(s: seq<string>, x: string, y: string)
    requires IsFirstMode(s, x)
    ensures Count(s, y) <= Count(s, x)
  {
    if y in s {
      var j := FirstIndex(s, y);
      assert s[j] == y;
    } else {
      CountOfAbsent(s, y);
    }
  }

  /** `determine_level_of_suspicion`: the most frequent level
      of the mapped list, ties going to the level that occurs first; `max` of
      the empty list raises `ValueError`. */
  function DetermineLevelOfSuspicion(selected: seq<string>): (r: Result<string, PyError>)
    ensures |selected| == 0 <==> r == Failure(ValueError)
    ensures r.Success? <==> |selected| > 0
    ensures r.Success? ==> r.value in SuspicionLevels(selected)
    ensures r.Success? ==> r.value in LevelTexts || r.value == NormalLevel
  {
    var levels := SuspicionLevels(selected);
    SuspicionLevelsPointwise(selected);
    if |levels| == 0 then Failure(ValueError)
    else Success(levels[MaxByCount(levels)])
  }

  /** The result is exactly the first mode of the mapped list: the returned
      level is the first mode, and any first mode is the returned level. */
  lemma LevelIsFirstMode(selected: seq<string>, level: string)
    ensures DetermineLevelOfSuspicion(selected) == Success(level)
      <==> |selected| > 0 && IsFirstMode(SuspicionLevels(selected), level)
  {
    if |selected| > 0 {
      MaxByCountIffFirstMode(SuspicionLevels(selected), level);
    }
  }

  /** No level of the mapped list occurs more often than the returned one. */
  lemma NoLevelOutnumbersResult(selected: seq<string>, other: string)
    requires DetermineLevelOfSuspicion(selected).Success?
    ensures Count(SuspicionLevels(selected), other)
      <= Count(SuspicionLevels(selected), DetermineLevelOfSuspicion(selected).value)
  {
    var level := DetermineLevelOfSuspicion(selected).value;
    LevelIsFirstMode(selected, level);
    FirstModeOutnumbersAll(SuspicionLevels(selected), level, other);
  }

  /** Worked example: a clear majority of two votes against one. */
  lemma MajorityExample()
    ensures DetermineLevelOfSuspicion(["spamMessages", "otp", "otp"]) == Success("Very Highly Suspicious")
  {
    LevelOfEachCode();
    var s := SuspicionLevels(["spamMessages", "otp", "otp"]);
    assert s == ["Less", "Very Highly Suspicious", "Very Highly Suspicious"];
    assert Count(s, "Less") == 1;
    assert Count(s, "Very Highly Suspicious") == 2;
    assert Counts(s) == [1, 2, 2];
    assert MaxByCount(s) == 1;
  }

  /** The scan over two levels tied at two votes each stops on the first. */
  lemma TiedScan()
    ensures MaxByCount(["Abnormal", "Very Highly Suspicious", "Abnormal", "Very Highly Suspicious"]) == 0
  {
    var s := ["Abnormal", "Very Highly Suspicious", "Abnormal", "Very Highly Suspicious"];
    assert Count(s, "Abnormal") == 2;
    assert Count(s, "Very Highly Suspicious") == 2;
    assert Counts(s) == [2, 2, 2, 2];
  }

  /** Worked example: a tie of two against two goes to the level that occurs first. */
  lemma TieBreakExample()
    ensures DetermineLevelOfSuspicion(["linkSpamming", "otp", "jobscam", "bankAccount"]) == Success("Abnormal")
  {
    LevelOfEachCode();
    var s := SuspicionLevels(["linkSpamming", "otp", "jobscam", "bankAccount"]);
    assert s == ["Abnormal", "Very Highly Suspicious", "Abnormal", "Very Highly Suspicious"];
    TiedScan();
  }

  /** Worked example: a code outside the table counts as `'Normal'`. */
  lemma UnknownCodeExample()
    ensures DetermineLevelOfSuspicion(["scam"]) == Success("Normal")
  {
    assert LevelOf("scam") == NormalLevel;
    var s := SuspicionLevels(["scam"]);
    assert s == ["Normal"];
    assert MaxByCount(s) == 0;
  }

  /** The `behavior_messages` dictionary comprehension: each selected code that
      lies in the whitelist, inserted in order, mapped to its message. */
  function BehaviorMessages(selected: seq<string>): (m: map<string, string>)
    ensures m.Keys == set r | r in selected && r in Whitelist
    ensures forall r :: r in m ==> m[r] == GetBehaviorMessage(r)
  {
    if |selected| == 0 then map[]
    else
      var prefix := selected[..|selected| - 1];
      var last := selected[|selected| - 1];
      assert selected == prefix + [last];
      var m := BehaviorMessages(prefix);
      if last in Whitelist then m[last := GetBehaviorMessage(last)] else m
  }

  /** No entry of the dictionary carries the fallback text; every value is one
      of the table messages. */
  lemma BehaviorMessagesAreTableTexts(selected: seq<string>, r: string)
    requires r in BehaviorMessages(selected)
    ensures BehaviorMessages(selected)[r] in MessageTexts
    ensures BehaviorMessages(selected)[r] != NormalBehaviour
  {
  }
}
