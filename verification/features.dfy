/** `get_instagram_data`: the eight-field feature record built from a fetched
    profile, and the vector of its values handed to the model. */
module Features {
  import opened Wrappers

  /** The attributes of a fetched profile that the feature record reads. */
  datatype Profile = Profile(
    username: string,
    followers: nat,
    followees: nat,
    biography: string,
    mediacount: nat,
    isPrivate: bool,
    profilePicUrl: Option<string>)

  /** The feature dictionary, one field per key, in insertion order. */
  datatype FeatureRecord = FeatureRecord(
    userFollowerCount: nat,
    userFollowingCount: nat,
    userBiographyLength: nat,
    userMediaCount: nat,
    userHasProfilPic: nat,
    userIsPrivate: nat,
    usernameDigitCount: nat,
    usernameLength: nat)

  /** The record's guarantees: both flags are 0 or 1, a profile picture is only
      reported for a public account, and the digits are part of the username. */
  predicate WellFormed(f: FeatureRecord) {
    && f.userHasProfilPic <= 1
    && f.userIsPrivate <= 1
    && (f.userHasProfilPic == 1 ==> f.userIsPrivate == 0)
    && f.usernameDigitCount <= f.usernameLength
  }

  /** Python's `int(b)` of a boolean. */
  function BoolToInt(b: bool): nat {
    if b then 1 else 0
  }

  /** `str.isdigit` on a single character, restricted to the ASCII digits. */
  predicate IsDigit(c: char) {
    '0' <= c <= '9'
  }

  /** The number of digit characters of the username: at most the length, and the length
      exactly when every character is a digit. */
  function DigitCount(s: string): (n: nat)
    ensures n <= |s|
    ensures n == |s| <==> forall i :: 0 <= i < |s| ==> IsDigit(s[i])
  {
    if |s| == 0 then 0
    else
      var rest := DigitCount(s[1..]);
      assert forall i :: 1 <= i < |s| ==> s[i] == s[1..][i - 1];
      BoolToInt(IsDigit(s[0])) + rest
  }

  /** The digit count of a concatenation is the sum of the parts' counts. */
  lemma {:induction false} DigitCountAppend(a: string, b: string)
    ensures DigitCount(a + b) == DigitCount(a) + DigitCount(b)
  {
    if |a| == 0 {
      assert a + b == b;
    } else {
      assert (a + b)[0] == a[0];
      assert (a + b)[1..] == a[1..] + b;
      DigitCountAppend(a[1..], b);
    }
  }

  /** The dictionary literal of `get_instagram_data` for a fetched profile. */
  function GetInstagramData(profile: Profile): (f: FeatureRecord)
    ensures WellFormed(f)
    ensures f.userFollowerCount == profile.followers
    ensures f.userFollowingCount == profile.followees
    ensures f.userMediaCount == profile.mediacount
    ensures f.usernameDigitCount == DigitCount(profile.username)
    ensures f.userHasProfilPic == 1 <==> !profile.isPrivate && profile.profilePicUrl.Some?
    ensures f.userIsPrivate == 1 <==> profile.isPrivate
    ensures f.usernameLength == |profile.username|
    ensures f.userBiographyLength == |profile.biography|
  {
    FeatureRecord(
      profile.followers,
      profile.followees,
      |profile.biography|,
      profile.mediacount,
      BoolToInt(!profile.isPrivate && profile.profilePicUrl.Some?),
      BoolToInt(profile.isPrivate),
      DigitCount(profile.username),
      |profile.username|)
  }

  /** The values of the feature dictionary: the eight fields in its fixed
      insertion order, so reading the vector back recovers the record. */
  function ToVector(f: FeatureRecord): (v: seq<int>)
    ensures |v| == 8
    ensures FromVector(v) == Some(f)
  {
    [f.userFollowerCount, f.userFollowingCount, f.userBiographyLength, f.userMediaCount,
     f.userHasProfilPic, f.userIsPrivate, f.usernameDigitCount, f.usernameLength]
  }

  /** The inverse of the vector assembly, used to state its round trip: a
      vector reads back as a record when it has eight non-negative entries. */
  function FromVector(v: seq<int>): (r: Option<FeatureRecord>)
    ensures r.Some? <==> |v| == 8 && forall i :: 0 <= i < |v| ==> v[i] >= 0
  {
    if |v| == 8 && v[0] >= 0 && v[1] >= 0 && v[2] >= 0 && v[3] >= 0
       && v[4] >= 0 && v[5] >= 0 && v[6] >= 0 && v[7] >= 0
    then Some(FeatureRecord(v[0], v[1], v[2], v[3], v[4], v[5], v[6], v[7]))
    else None
  }

  /** Every vector that reads back as a record is that record's vector. */
  lemma VectorRoundTripBack(v: seq<int>, f: FeatureRecord)
    requires FromVector(v) == Some(f)
    ensures ToVector(f) == v
  {
  }

  /** The vector of a fetched profile: eight entries, the two flags 0 or 1 and
      not both 1, the digit count at most the username length. */
  lemma ProfileVectorShape(profile: Profile)
    ensures var v := ToVector(GetInstagramData(profile));
      && |v| == 8
      && 0 <= v[4] <= 1 && 0 <= v[5] <= 1
      && !(v[4] == 1 && v[5] == 1)
      && 0 <= v[6] <= v[7] == |profile.username|
  {
  }
}
